/** connection_utils.js: generation through a named connection profile,
    without touching the host's global connection settings. */
module ConnectionUtils {
  import opened JsString
  import opened Optional
  import opened JsValues
  import opened Backend

  /** The default number of polls of `waitForConnectionManager`. */
  const DefaultAttempts: int := 10
  /** The token budget of a profile request made here. */
  const ProfileMaxTokens: nat := 500
  const InvalidFormat: string := "Invalid response format from API"

  /** The first poll, counting from 1, at which the manager is seen. */
  predicate FirstSeen(sees: nat -> bool, k: nat) {
    k >= 1 && sees(k) && forall j :: 1 <= j < k ==> !sees(j)
  }

  /** `waitForConnectionManager(maxAttempts)`. `sees(k)` tells whether the
      manager is present at the k-th poll; the delay between polls is not
      modelled. Returns whether it was seen and how many polls were made. */
  method WaitForConnectionManager(maxAttempts: int, sees: nat -> bool) returns (ok: bool, checks: nat)
    ensures checks <= if maxAttempts < 0 then 0 else maxAttempts
    ensures ok <==> exists k :: 1 <= k <= maxAttempts && sees(k)
    ensures ok ==> FirstSeen(sees, checks)
    ensures !ok ==> checks == (if maxAttempts < 0 then 0 else maxAttempts)
  {
    var attempt := 1;
    checks := 0;
    while attempt <= maxAttempts
      invariant 1 <= attempt
      invariant checks == attempt - 1
      invariant attempt <= maxAttempts + 1 || attempt == 1
      invariant forall j :: 1 <= j < attempt ==> !sees(j)
    {
      checks := checks + 1;
      if sees(attempt) {
        return true, checks;
      }
      attempt := attempt + 1;
    }
    ok := false;
  }

  /** `profiles.find(p => p.name === name)`. */
  function FindProfile(profiles: seq<Profile>, name: string): (r: Option<Profile>)
    ensures r.Some? <==> exists k :: 0 <= k < |profiles| && profiles[k].name == name
    ensures r.Some? ==> exists k :: (0 <= k < |profiles| && profiles[k] == r.value
      && (forall j :: 0 <= j < k ==> profiles[j].name != name))
    ensures r.Some? ==> r.value.name == name
  {
    if profiles == [] then None
    else if profiles[0].name == name then Some(profiles[0])
    else
      var r := FindProfile(profiles[1..], name);
      assert forall k :: 1 <= k < |profiles| ==> profiles[k] == profiles[1..][k - 1];
      r
  }

  /** Where the manager's profile list stands once it is read: absent or not
      a list (reading `.find` then throws) or a list. */
  datatype ProfileList = Missing | Listed(profiles: seq<Profile>)

  /** `getProfileByName(name)`: null when the manager never shows up within
      the default number of polls, when the list cannot be read (the thrown
      error is swallowed), or when no profile has that name. */
  method GetProfileByName(name: string, sees: nat -> bool, list: ProfileList) returns (r: Option<Profile>)
    ensures r.Some? <==> ((exists k :: 1 <= k <= DefaultAttempts && sees(k))
      && list.Listed? && FindProfile(list.profiles, name).Some?)
    ensures r.Some? ==> r == FindProfile(list.profiles, name)
  {
    var available, _ := WaitForConnectionManager(DefaultAttempts, sees);
    if !available {
      return None;
    }
    match list
    case Missing =>
      r := None;
    case Listed(profiles) =>
      r := FindProfile(profiles, name);
  }

  /** The messages array: a system message first when `systemPrompt` is not
      empty, then the prompt as the one user message. */
  method BuildMessages(systemPrompt: string, prompt: string) returns (messages: seq<ChatTurn>)
    ensures |messages| == if systemPrompt != "" then 2 else 1
    ensures messages[|messages| - 1] == ChatTurn("user", prompt)
    ensures systemPrompt != "" ==> messages[0] == ChatTurn("system", systemPrompt)
    ensures forall k :: 0 <= k < |messages| - 1 ==> messages[k].role != "user"
  {
    messages := [];
    if systemPrompt != "" {
      messages := messages + [ChatTurn("system", systemPrompt)];
    }
    messages := messages + [ChatTurn("user", prompt)];
  }

  /** The reply shapes accepted, in order: a truthy `content`, a plain
      string, a truthy `choices[0].message.content`, a truthy `text`;
      anything else is refused. */
  function ExtractContent(response: Value): (r: Result<Value, JsError>)
    ensures Truthy(Get(response, "content")) ==> r == Ok(Get(response, "content"))
    ensures !Truthy(Get(response, "content")) && response.Str? ==> r == Ok(response)
    ensures !Truthy(Get(response, "content")) && !response.Str? && Truthy(ChoiceContent(response))
      ==> r == Ok(ChoiceContent(response))
    ensures (!Truthy(Get(response, "content")) && !response.Str? && !Truthy(ChoiceContent(response))
             && Truthy(Get(response, "text"))) ==> r == Ok(Get(response, "text"))
    ensures r.Err? <==> (!Truthy(Get(response, "content")) && !response.Str?
      && !Truthy(ChoiceContent(response)) && !Truthy(Get(response, "text")))
    ensures r.Err? ==> r.error == Error(InvalidFormat)
    ensures r.Ok? ==> r.value.Str? || Truthy(r.value)
  {
    if Truthy(Get(response, "content")) then Ok(Get(response, "content"))
    else if response.Str? then Ok(response)
    else if Truthy(ChoiceContent(response)) then Ok(ChoiceContent(response))
    else if Truthy(Get(response, "text")) then Ok(Get(response, "text"))
    else Err(Error(InvalidFormat))
  }

  /** A string reply without fields is returned as it is, even when empty. */
  lemma StringReplyKept(s: string)
    ensures ExtractContent(Str(s)) == Ok(Str(s))
  {
  }

  /** `generateWithProfile(profileName, prompt, systemPrompt)`. The profile
      is looked up as `GetProfileByName` does; `hasService` tells whether
      the host has a `ConnectionManagerRequestService`; `send` gives the
      outcome of the request. Returns the request sent, if any, and the
      value returned or the error thrown. */
  method GenerateWithProfile(profileName: string, prompt: string, systemPrompt: string,
                             sees: nat -> bool, list: ProfileList, hasService: bool,
                             send: Request -> Result<Value, JsError>)
    returns (sent: Option<Request>, r: Result<Value, JsError>)
    ensures sent.None? ==> r.Err?
    ensures (!(exists k :: 1 <= k <= DefaultAttempts && sees(k)) || !list.Listed?
             || FindProfile(list.profiles, profileName).None?)
      ==> sent == None && r == Err(Error("Connection profile not found: " + profileName))
    ensures sent.Some? ==> (
      && list.Listed? && FindProfile(list.profiles, profileName).Some?
      && sent.value == ProfileSend(FindProfile(list.profiles, profileName).value.id,
                                   ProfileMessages(systemPrompt, prompt), ProfileMaxTokens)
      && r == (match send(sent.value) case Err(e) => Err(e) case Ok(v) => ExtractContent(v)))
    ensures sent.None? && r != Err(Error("Connection profile not found: " + profileName)) ==>
      !hasService && r == Err(ReadError(Undefined, "sendRequest"))
    ensures (hasService && list.Listed? && FindProfile(list.profiles, profileName).Some?
      && (exists k :: 1 <= k <= DefaultAttempts && sees(k))) ==> sent.Some?
  {
    var profile := GetProfileByName(profileName, sees, list);
    if profile.None? {
      return None, Err(Error("Connection profile not found: " + profileName));
    }
    var messages := BuildMessages(systemPrompt, prompt);
    BuildMessagesIsProfileMessages(systemPrompt, prompt, messages);
    if !hasService {
      return None, Err(ReadError(Undefined, "sendRequest"));
    }
    var request := ProfileSend(profile.value.id, messages, ProfileMaxTokens);
    sent := Some(request);
    var response := send(request);
    match response
    case Err(e) =>
      r := Err(e);
    case Ok(v) =>
      r := ExtractContent(v);
  }

  /** The messages array `BuildMessages` makes, as a value. */
  function ProfileMessages(systemPrompt: string, prompt: string): (m: seq<ChatTurn>)
    ensures |m| >= 1 && m[|m| - 1] == ChatTurn("user", prompt)
  {
    (if systemPrompt != "" then [ChatTurn("system", systemPrompt)] else []) + [ChatTurn("user", prompt)]
  }

  /** `BuildMessages` and `ProfileMessages` agree. */
  lemma BuildMessagesIsProfileMessages(systemPrompt: string, prompt: string, m: seq<ChatTurn>)
    requires |m| == (if systemPrompt != "" then 2 else 1)
    requires m[|m| - 1] == ChatTurn("user", prompt)
    requires systemPrompt != "" ==> m[0] == ChatTurn("system", systemPrompt)
    ensures m == ProfileMessages(systemPrompt, prompt)
  {
  }
}
