/** The RStudio Connect publish provider (src/publish/rsconnect/rsconnect.ts).

    Prompts, calls of the API client, random name suffixes and the stored
    credential list are inputs here: every prompt round and every remote call
    takes its answer from a scripted sequence. A loop whose script runs out
    ends with `Unfinished`, standing for the source still prompting, retrying
    or polling. */
module RSConnect {
  import opened Options

  const ServerVar := "CONNECT_SERVER"
  const ApiKeyVar := "CONNECT_API_KEY"
  const ViewerRole := "viewer"

  // ----- Data -----

  datatype AccountTokenType = Environment | Authorized

  datatype AccountToken = AccountToken(kind: AccountTokenType, name: string, server: string, token: string)

  /** A stored credential record. */
  datatype Account = Account(username: string, server: string, key: string)

  datatype PublishRecord = PublishRecord(id: string, url: string, code: bool)

  datatype Content = Content(guid: string, contentUrl: string, dashboardUrl: string)

  datatype User = User(username: string, userRole: string)

  datatype TaskStatus = TaskStatus(finished: bool, code: int, error: Option<string>)

  /** What a call of the API client (or the render callback) throws. */
  datatype CallError = ApiError(status: int) | TransportError(detail: string)

  /** What the provider's operations throw. */
  datatype Error =
    | Call(cause: CallError)                              // passed on from a call
    | EmptyInput                                          // the bare Error of an empty prompt answer
    | PublishFailed(code: int, message: Option<string>)   // the task finished with a non-zero code

  datatype Response<T> = Ok(value: T) | Fail(failure: CallError)

  /** How an operation ends; `Unfinished` when its scripted inputs ran out. */
  datatype Outcome<T> = Done(value: T) | Raised(error: Error) | Unfinished

  // ----- Error classification -----

  predicate IsUnauthorized(err: Error) {
    err.Call? && err.cause.ApiError? && err.cause.status == 401
  }

  predicate IsConflict(err: Error) {
    err.Call? && err.cause.ApiError? && err.cause.status == 409
  }

  predicate IsNotFound(err: Error) {
    err.Call? && err.cause.ApiError? && err.cause.status == 404
  }

  datatype ErrorKind = Unauthorized | Conflict | NotFound | OtherError

  /** The error taxonomy, read off the HTTP status of an API error. */
  function Classify(err: Error): (k: ErrorKind)
    ensures k == Unauthorized <==> IsUnauthorized(err)
    ensures k == Conflict <==> IsConflict(err)
    ensures k == NotFound <==> IsNotFound(err)
  {
    match err
    case Call(ApiError(401)) => Unauthorized
    case Call(ApiError(409)) => Conflict
    case Call(ApiError(404)) => NotFound
    case _ => OtherError
  }

  /** No error is in two classes. */
  lemma ClassesAreExclusive(err: Error)
    ensures !(IsUnauthorized(err) && IsConflict(err))
    ensures !(IsUnauthorized(err) && IsNotFound(err))
    ensures !(IsConflict(err) && IsNotFound(err))
  {
    var _ := Classify(err);
  }

  predicate ConflictReply<T>(reply: Response<T>) {
    reply.Fail? && IsConflict(Call(reply.failure))
  }

  // ----- Stored accounts -----

  /** The variable is set and not empty. */
  predicate EnvSet(env: map<string, string>, name: string) {
    name in env && env[name] != ""
  }

  predicate HasEnvironmentToken(env: map<string, string>) {
    EnvSet(env, ServerVar) && EnvSet(env, ApiKeyVar)
  }

  function StoredRecords(stored: Option<seq<Account>>): seq<Account> {
    if stored.Some? then stored.value else []
  }

  function AuthorizedToken(a: Account): AccountToken {
    AccountToken(Authorized, a.username, a.server, a.key)
  }

  /** The usable tokens: one from the environment when both variables are set,
      then one per stored record, in stored order. */
  method AccountTokens(env: map<string, string>, stored: Option<seq<Account>>)
    returns (accounts: seq<AccountToken>)
    ensures |accounts| == (if HasEnvironmentToken(env) then 1 else 0) + |StoredRecords(stored)|
    ensures HasEnvironmentToken(env) ==>
      accounts[0] == AccountToken(Environment, ApiKeyVar, env[ServerVar], env[ApiKeyVar])
    ensures forall k :: 0 <= k < |StoredRecords(stored)| ==>
      accounts[|accounts| - |StoredRecords(stored)| + k] == AuthorizedToken(StoredRecords(stored)[k])
    ensures forall k :: 0 <= k < |accounts| && accounts[k].kind == Environment ==>
      k == 0 && HasEnvironmentToken(env)
  {
    accounts := [];
    if EnvSet(env, ServerVar) && EnvSet(env, ApiKeyVar) {
      accounts := accounts + [AccountToken(Environment, ApiKeyVar, env[ServerVar], env[ApiKeyVar])];
    }
    if stored.Some? {
      var tokens := stored.value;
      accounts := accounts + seq(|tokens|, k requires 0 <= k < |tokens| => AuthorizedToken(tokens[k]));
    }
  }

  /** The records whose username differs from `name`, in their order. */
  function KeepOthers(records: seq<Account>, name: string): (kept: seq<Account>)
    ensures |kept| <= |records|
  {
    if records == [] then []
    else (if records[0].username != name then [records[0]] else []) + KeepOthers(records[1..], name)
  }

  /** Each record is kept as often as it is stored, unless it carries the name. */
  lemma {:induction false} KeepOthersCount(records: seq<Account>, name: string, a: Account)
    ensures multiset(KeepOthers(records, name))[a] == if a.username == name then 0 else multiset(records)[a]
  {
    if records != [] {
      assert records == [records[0]] + records[1..];
      KeepOthersCount(records[1..], name, a);
    }
  }

  lemma KeepOthersCounts(records: seq<Account>, name: string)
    ensures forall a :: multiset(KeepOthers(records, name))[a] ==
                        if a.username == name then 0 else multiset(records)[a]
  {
    forall a {
      KeepOthersCount(records, name, a);
    }
  }

  /** Filtering commutes with concatenation, so the kept records stay in order. */
  lemma {:induction false} KeepOthersConcat(xs: seq<Account>, ys: seq<Account>, name: string)
    ensures KeepOthers(xs + ys, name) == KeepOthers(xs, name) + KeepOthers(ys, name)
  {
    if xs == [] {
      assert xs + ys == ys;
    } else {
      assert (xs + ys)[0] == xs[0];
      assert (xs + ys)[1..] == xs[1..] + ys;
      KeepOthersConcat(xs[1..], ys, name);
    }
  }

  /** The list `removeToken` writes back: the stored records not named like
      the token, or nothing when no list is stored. */
  function RemoveToken(stored: Option<seq<Account>>, token: AccountToken): (written: seq<Account>)
    ensures stored.None? ==> written == []
    ensures forall a :: a in written <==> a in StoredRecords(stored) && a.username != token.name
    ensures forall a :: multiset(written)[a] ==
                        if a.username == token.name then 0 else multiset(StoredRecords(stored))[a]
  {
    if stored.Some? then
      KeepOthersCounts(stored.value, token.name);
      KeepOthers(stored.value, token.name)
    else []
  }

  /** Removing twice writes what removing once wrote. */
  lemma {:induction false} RemoveTokenIdempotent(records: seq<Account>, token: AccountToken)
    ensures RemoveToken(Some(RemoveToken(Some(records), token)), token) == RemoveToken(Some(records), token)
  {
    if records != [] {
      var rest := records[1..];
      RemoveTokenIdempotent(rest, token);
      var head := if records[0].username != token.name then [records[0]] else [];
      KeepOthersConcat(head, KeepOthers(rest, token.name), token.name);
    }
  }

  /** After removal, listing the stored accounts shows no authorized token with
      the removed name, and every other stored record still gives its token. */
  lemma RemovedTokenNotListed(stored: Option<seq<Account>>, token: AccountToken, a: Account)
    ensures a in RemoveToken(stored, token) ==> AuthorizedToken(a).name != token.name
    ensures a in StoredRecords(stored) && a.username != token.name ==> a in RemoveToken(stored, token)
  {
  }

  // ----- Authorization -----

  /** One answer at the server prompt: what was typed, the URL the prompt's
      validation and transform make of it (None when it is not an http or
      https URL), and the reply the unauthenticated `getUser` probe would get. */
  datatype ServerEntry = ServerEntry(typed: string, url: Option<string>, probe: Response<User>)

  /** One answer at the API key prompt and the reply of the authenticated `getUser`. */
  datatype KeyEntry = KeyEntry(key: string, reply: Response<User>)

  /** What one prompt round decides. */
  datatype Round<T> = Cancel | Retry | Accept(value: T) | Fatal(error: Error)

  /** A server round: an empty answer aborts, an invalid URL is asked again,
      a probe that succeeds or is refused with 401 shows a Connect server, and
      any other probe failure asks for the server again. */
  function ServerRound(e: ServerEntry): (r: Round<string>)
    ensures !r.Fatal?
    ensures r.Cancel? <==> e.typed == ""
    ensures r.Accept? <==> e.typed != "" && e.url.Some? && (e.probe.Ok? || IsUnauthorized(Call(e.probe.failure)))
    ensures r.Accept? ==> r.value == e.url.value
  {
    if e.typed == "" then Cancel
    else if e.url.None? then Retry
    else if e.probe.Ok? || IsUnauthorized(Call(e.probe.failure)) then Accept(e.url.value)
    else Retry
  }

  /** A key round: an empty key aborts, a viewer's key or a 401 asks again,
      any other failure is fatal, any other user is accepted. */
  function KeyRound(e: KeyEntry): (r: Round<User>)
    ensures r.Cancel? <==> e.key == ""
    ensures r.Retry? <==>
      e.key != "" && (if e.reply.Ok? then e.reply.value.userRole == ViewerRole else IsUnauthorized(Call(e.reply.failure)))
    ensures r.Fatal? ==> e.reply.Fail? && r.error == Call(e.reply.failure) && !IsUnauthorized(r.error)
  {
    if e.key == "" then Cancel
    else
      match e.reply
      case Ok(user) => if user.userRole != ViewerRole then Accept(user) else Retry
      case Fail(f) => if IsUnauthorized(Call(f)) then Retry else Fatal(Call(f))
  }

  lemma KeyRoundNeverAcceptsViewer(e: KeyEntry)
    ensures KeyRound(e).Accept? ==>
              e.reply.Ok? && e.reply.value.userRole != ViewerRole && KeyRound(e).value == e.reply.value
  {
  }

  /** The server loop: asks until a round accepts a server or aborts. */
  method PromptServer(entries: seq<ServerEntry>) returns (r: Outcome<string>, rounds: nat)
    ensures rounds <= |entries|
    ensures forall i :: 0 <= i < rounds - 1 ==> ServerRound(entries[i]).Retry?
    ensures r.Done? ==> 0 < rounds && ServerRound(entries[rounds - 1]) == Accept(r.value)
    ensures r.Raised? ==> 0 < rounds && ServerRound(entries[rounds - 1]).Cancel? && r.error == EmptyInput
    ensures r.Unfinished? ==> rounds == |entries| && forall i :: 0 <= i < rounds ==> ServerRound(entries[i]).Retry?
  {
    rounds := 0;
    var server: Option<string> := None;
    while server.None?
      invariant rounds <= |entries|
      invariant forall i :: 0 <= i < rounds - (if server.Some? then 1 else 0) ==> ServerRound(entries[i]).Retry?
      invariant server.Some? ==> 0 < rounds && ServerRound(entries[rounds - 1]) == Accept(server.value)
      decreases |entries| - rounds
    {
      if rounds == |entries| {
        return Unfinished, rounds;
      }
      var entry := entries[rounds];
      rounds := rounds + 1;
      // an empty answer ends the prompt by throwing
      if entry.typed == "" {
        return Raised(EmptyInput), rounds;
      }
      // an answer that is not an http(s) URL is asked for again
      if entry.url.None? {
        continue;
      }
      server := entry.url;
      match entry.probe {
        case Ok(_) =>
        case Fail(f) =>
          if IsUnauthorized(Call(f)) {
            break;
          } else {
            server := None;
          }
      }
    }
    r := Done(server.value);
  }

  /** The key loop: asks until a key of a non-viewer is accepted, the answer
      is empty, or a failure other than 401 occurs. */
  method PromptApiKey(entries: seq<KeyEntry>) returns (r: Outcome<User>, rounds: nat)
    ensures rounds <= |entries|
    ensures forall i :: 0 <= i < rounds - 1 ==> KeyRound(entries[i]).Retry?
    ensures r.Done? ==> 0 < rounds && KeyRound(entries[rounds - 1]) == Accept(r.value)
    ensures r.Raised? ==>
              && 0 < rounds
              && (|| (KeyRound(entries[rounds - 1]).Cancel? && r.error == EmptyInput)
                  || KeyRound(entries[rounds - 1]) == Fatal(r.error))
    ensures r.Unfinished? ==> rounds == |entries| && forall i :: 0 <= i < rounds ==> KeyRound(entries[i]).Retry?
  {
    rounds := 0;
    while true
      invariant rounds <= |entries|
      invariant forall i :: 0 <= i < rounds ==> KeyRound(entries[i]).Retry?
      decreases |entries| - rounds
    {
      if rounds == |entries| {
        return Unfinished, rounds;
      }
      var entry := entries[rounds];
      rounds := rounds + 1;
      if entry.key == "" {
        return Raised(EmptyInput), rounds;
      }
      match entry.reply {
        case Ok(user) =>
          if user.userRole != ViewerRole {
            return Done(user), rounds;
          }
          // a viewer's key: report and ask again
        case Fail(f) =>
          if !IsUnauthorized(Call(f)) {
            return Raised(Call(f)), rounds;
          }
          // not authorized on this server: report and ask again
      }
    }
  }

  /** The account `writeAccessToken` upserts, matching stored records by server. */
  function SavedAccount(server: string, key: string, user: User): Account {
    Account(user.username, server, key)
  }

  /** Interactive authorization: a server, then a key. On success `saved` is the
      account handed to `writeAccessToken`. */
  method AuthorizeToken(servers: seq<ServerEntry>, keys: seq<KeyEntry>)
    returns (r: Outcome<AccountToken>, saved: Option<Account>, serverRounds: nat, keyRounds: nat)
    ensures serverRounds <= |servers| && keyRounds <= |keys|
    ensures forall i :: 0 <= i < serverRounds - 1 ==> ServerRound(servers[i]).Retry?
    ensures forall j :: 0 <= j < keyRounds - 1 ==> KeyRound(keys[j]).Retry?
    // the key is asked for only once a server has been accepted
    ensures keyRounds > 0 ==> 0 < serverRounds && ServerRound(servers[serverRounds - 1]).Accept?
    ensures saved.Some? <==> r.Done?
    ensures r.Done? ==> 0 < keyRounds && KeyRound(keys[keyRounds - 1]).Accept?
    ensures r.Done? ==>
      var server := ServerRound(servers[serverRounds - 1]).value;
      var key := keys[keyRounds - 1].key;
      var user := keys[keyRounds - 1].reply.value;
      && user.userRole != ViewerRole
      && r.value == AccountToken(Authorized, user.username, server, key)
      && saved == Some(SavedAccount(server, key, user))
    ensures r.Raised? && r.error != EmptyInput ==>
      0 < keyRounds && KeyRound(keys[keyRounds - 1]) == Fatal(r.error) && !IsUnauthorized(r.error)
    ensures r == Raised(EmptyInput) ==>
      || (0 < serverRounds && ServerRound(servers[serverRounds - 1]).Cancel? && keyRounds == 0)
      || (0 < keyRounds && KeyRound(keys[keyRounds - 1]).Cancel?)
    // the answers ran out: every server answer was asked again, or a server
    // was accepted and every key answer was asked again
    ensures r.Unfinished? ==>
      || (&& keyRounds == 0 && serverRounds == |servers|
          && forall i :: 0 <= i < serverRounds ==> ServerRound(servers[i]).Retry?)
      || (&& 0 < serverRounds && ServerRound(servers[serverRounds - 1]).Accept?
          && keyRounds == |keys| && forall j :: 0 <= j < keyRounds ==> KeyRound(keys[j]).Retry?)
  {
    saved := None;
    keyRounds := 0;
    var server;
    server, serverRounds := PromptServer(servers);
    if !server.Done? {
      r := if server.Raised? then Raised(server.error) else Unfinished;
      return;
    }
    var user;
    user, keyRounds := PromptApiKey(keys);
    if !user.Done? {
      r := if user.Raised? then Raised(user.error) else Unfinished;
      return;
    }
    var key := keys[keyRounds - 1].key;
    saved := Some(SavedAccount(server.value, key, user.value));
    r := Done(AccountToken(Authorized, user.value.username, server.value, key));
  }

  // ----- Content creation -----

  /** One pass of the creation loop: the random suffix drawn and the reply to
      `createContent` with the resulting name. */
  datatype CreateAttempt = CreateAttempt(suffix: string, reply: Response<Content>)

  function ContentName(baseName: string, suffix: string): string {
    baseName + "-" + suffix
  }

  /** Different suffixes give different names. */
  lemma ContentNameInjective(baseName: string, s: string, t: string)
    requires ContentName(baseName, s) == ContentName(baseName, t)
    ensures s == t
  {
    var n := |baseName + "-"|;
    assert s == ContentName(baseName, s)[n..];
    assert t == ContentName(baseName, t)[n..];
  }

  /** How many passes the creation loop makes: up to and including the first
      reply that is not a conflict, or all of them. */
  function CreatePasses(attempts: seq<CreateAttempt>): (n: nat)
    ensures n <= |attempts|
    ensures forall i :: 0 <= i < n - 1 ==> ConflictReply(attempts[i].reply)
    ensures || (0 < n && !ConflictReply(attempts[n - 1].reply))
            || (n == |attempts| && forall i :: 0 <= i < n ==> ConflictReply(attempts[i].reply))
  {
    if attempts == [] then 0
    else if ConflictReply(attempts[0].reply) then
      var n := 1 + CreatePasses(attempts[1..]);
      assert forall i :: 1 <= i < |attempts| ==> attempts[i] == attempts[1..][i - 1];
      n
    else 1
  }

  /** The number of passes is fixed by the loop's exit conditions. */
  lemma CreatePassesUnique(attempts: seq<CreateAttempt>, n: nat)
    requires n <= |attempts|
    requires forall i :: 0 <= i < n - 1 ==> ConflictReply(attempts[i].reply)
    requires || (0 < n && !ConflictReply(attempts[n - 1].reply))
             || (n == |attempts| && forall i :: 0 <= i < n ==> ConflictReply(attempts[i].reply))
    ensures n == CreatePasses(attempts)
  {
  }

  /** What the creation loop ends with: the content of the first reply that is
      not a conflict, or its failure; unfinished when every reply conflicts. */
  function CreateOutcome(attempts: seq<CreateAttempt>): Outcome<Content> {
    var n := CreatePasses(attempts);
    if n == 0 || ConflictReply(attempts[n - 1].reply) then Unfinished
    else
      match attempts[n - 1].reply
      case Ok(content) => Done(content)
      case Fail(f) => Raised(Call(f))
  }

  /** The creation calls of the first `n` passes. */
  function CreateCalls(baseName: string, attempts: seq<CreateAttempt>, n: nat): (calls: seq<Event>)
    requires n <= |attempts|
    ensures |calls| == n
    ensures forall i :: 0 <= i < n ==> calls[i] == CreateContentCall(ContentName(baseName, attempts[i].suffix))
  {
    seq(n, i requires 0 <= i < n => CreateContentCall(ContentName(baseName, attempts[i].suffix)))
  }

  /** Tries `baseName-suffix` with a fresh suffix each pass: a conflict is
      retried, any other failure is raised, the first created content returned. */
  method CreateContent(baseName: string, attempts: seq<CreateAttempt>)
    returns (r: Outcome<Content>, names: seq<string>)
    ensures |names| <= |attempts|
    ensures forall i :: 0 <= i < |names| ==> names[i] == ContentName(baseName, attempts[i].suffix)
    ensures forall i :: 0 <= i < |names| - 1 ==> ConflictReply(attempts[i].reply)
    ensures r.Done? ==> 0 < |names| && attempts[|names| - 1].reply == Ok(r.value)
    ensures r.Raised? ==>
              && 0 < |names| && attempts[|names| - 1].reply.Fail?
              && r.error == Call(attempts[|names| - 1].reply.failure) && !IsConflict(r.error)
    ensures r.Unfinished? ==> |names| == |attempts| && forall i :: 0 <= i < |attempts| ==> ConflictReply(attempts[i].reply)
    ensures |names| == CreatePasses(attempts) && r == CreateOutcome(attempts)
  {
    names := [];
    while true
      invariant |names| <= |attempts|
      invariant forall i :: 0 <= i < |names| ==> names[i] == ContentName(baseName, attempts[i].suffix)
      invariant forall i :: 0 <= i < |names| ==> ConflictReply(attempts[i].reply)
      decreases |attempts| - |names|
    {
      if |names| == |attempts| {
        CreatePassesUnique(attempts, |names|);
        return Unfinished, names;
      }
      var attempt := attempts[|names|];
      names := names + [ContentName(baseName, attempt.suffix)];
      match attempt.reply {
        case Ok(content) =>
          CreatePassesUnique(attempts, |names|);
          return Done(content), names;
        case Fail(f) =>
          if !IsConflict(Call(f)) {
            CreatePassesUnique(attempts, |names|);
            return Raised(Call(f)), names;
          }
      }
    }
  }

  /** The creation loop succeeds, fails or runs out exactly as its decisive
      reply says. */
  lemma CreateOutcomeCases(attempts: seq<CreateAttempt>)
    ensures var n := CreatePasses(attempts);
      && (forall c :: CreateOutcome(attempts) == Done(c) <==> 0 < n && attempts[n - 1].reply == Ok(c))
      && (forall f :: CreateOutcome(attempts) == Raised(Call(f)) <==>
                       0 < n && attempts[n - 1].reply == Fail(f) && !IsConflict(Call(f)))
      && (CreateOutcome(attempts).Raised? ==> CreateOutcome(attempts).error.Call?)
      && (CreateOutcome(attempts).Unfinished? <==>
            forall i :: 0 <= i < |attempts| ==> ConflictReply(attempts[i].reply))
  {
  }

  // ----- Publishing -----

  /** The calls `publish` makes, in order. */
  datatype Event =
    | CreateContentCall(name: string)
    | GetContentCall(id: string)
    | RenderCall(url: string)
    | TempContextCreated
    | UploadBundleCall(contentId: string)
    | DeployBundleCall(bundle: string)
    | TaskStatusCall(task: string)
    | TempContextCleanup

  /** The replies the collaborators of `publish` give: `createContent` pass by
      pass, `getContent`, the render callback (the files to publish), the
      uploaded bundle's id, the deployment task's id, and the task status poll
      by poll. */
  datatype PublishScript = PublishScript(
    attempts: seq<CreateAttempt>,
    fetched: Response<Content>,
    rendered: Response<seq<string>>,
    uploaded: Response<string>,
    deployed: Response<string>,
    statuses: seq<Response<TaskStatus>>)

  datatype Resolved = Resolved(target: PublishRecord, content: Content)

  /** The record made for newly created content. */
  function NewRecord(content: Content): PublishRecord {
    PublishRecord(content.guid, content.contentUrl, false)
  }

  /** Where `publish` goes: the given target with its fetched content, or the
      record of newly created content. */
  function ResolveOutcome(target: Option<PublishRecord>, script: PublishScript): Outcome<Resolved> {
    match target
    case Some(t) =>
      (match script.fetched
       case Ok(content) => Done(Resolved(t, content))
       case Fail(f) => Raised(Call(f)))
    case None =>
      (match CreateOutcome(script.attempts)
       case Done(content) => Done(Resolved(NewRecord(content), content))
       case Raised(e) => Raised(e)
       case Unfinished => Unfinished)
  }

  /** The calls resolution makes: one `getContent`, or the creation passes. */
  function ResolveCalls(baseName: string, target: Option<PublishRecord>, script: PublishScript): seq<Event> {
    if target.Some? then [GetContentCall(target.value.id)]
    else CreateCalls(baseName, script.attempts, CreatePasses(script.attempts))
  }

  /** Finds the content to publish to: the given target's, fetched by id, or
      newly created content with its new record. */
  method ResolveContent(baseName: string, target: Option<PublishRecord>, script: PublishScript)
    returns (r: Outcome<Resolved>, calls: seq<Event>)
    ensures r == ResolveOutcome(target, script) && calls == ResolveCalls(baseName, target, script)
    ensures forall e :: e in calls ==> e.CreateContentCall? || e.GetContentCall?
  {
    if target.None? {
      var created, names := CreateContent(baseName, script.attempts);
      calls := CreateCalls(baseName, script.attempts, |names|);
      r := match created
        case Done(content) => Done(Resolved(NewRecord(content), content))
        case Raised(e) => Raised(e)
        case Unfinished => Unfinished;
    } else {
      calls := [GetContentCall(target.value.id)];
      r := match script.fetched
        case Ok(content) => Done(Resolved(target.value, content))
        case Fail(f) => Raised(Call(f));
    }
  }

  /** A status reply that keeps the loop polling. */
  predicate Waiting(reply: Response<TaskStatus>) {
    reply.Ok? && !reply.value.finished
  }

  /** How many polls the status loop makes: up to and including the first
      reply that fails or reports a finished task, or all of them. */
  function Polls(statuses: seq<Response<TaskStatus>>): (n: nat)
    ensures n <= |statuses|
    ensures forall i :: 0 <= i < n - 1 ==> Waiting(statuses[i])
    ensures || (0 < n && !Waiting(statuses[n - 1]))
            || (n == |statuses| && forall i :: 0 <= i < n ==> Waiting(statuses[i]))
  {
    if statuses == [] then 0
    else if Waiting(statuses[0]) then
      var n := 1 + Polls(statuses[1..]);
      assert forall i :: 1 <= i < |statuses| ==> statuses[i] == statuses[1..][i - 1];
      n
    else 1
  }

  /** The number of polls is fixed by the loop's exit conditions. */
  lemma PollsUnique(statuses: seq<Response<TaskStatus>>, n: nat)
    requires n <= |statuses|
    requires forall i :: 0 <= i < n - 1 ==> Waiting(statuses[i])
    requires || (0 < n && !Waiting(statuses[n - 1]))
             || (n == |statuses| && forall i :: 0 <= i < n ==> Waiting(statuses[i]))
    ensures n == Polls(statuses)
  {
  }

  /** What the status loop ends with, decided by its last poll. */
  function PollOutcome(statuses: seq<Response<TaskStatus>>): Outcome<()> {
    var n := Polls(statuses);
    if n == 0 || Waiting(statuses[n - 1]) then Unfinished
    else
      match statuses[n - 1]
      case Fail(f) => Raised(Call(f))
      case Ok(status) =>
        if status.code == 0 then Done(()) else Raised(PublishFailed(status.code, status.error))
  }

  /** The status loop: polls until the task is finished; code 0 is success,
      any other code raises an error carrying the code and the message. */
  method PollTask(statuses: seq<Response<TaskStatus>>) returns (r: Outcome<()>, polls: nat)
    ensures polls <= |statuses|
    ensures forall i :: 0 <= i < polls - 1 ==> statuses[i].Ok? && !statuses[i].value.finished
    ensures r.Done? ==>
              && 0 < polls && statuses[polls - 1].Ok?
              && statuses[polls - 1].value.finished && statuses[polls - 1].value.code == 0
    ensures r.Raised? ==> 0 < polls && match statuses[polls - 1]
      case Fail(f) => r.error == Call(f)
      case Ok(s) => s.finished && s.code != 0 && r.error == PublishFailed(s.code, s.error)
    ensures r.Unfinished? ==>
              && polls == |statuses|
              && forall i :: 0 <= i < polls ==> statuses[i].Ok? && !statuses[i].value.finished
    ensures polls == Polls(statuses) && r == PollOutcome(statuses)
  {
    polls := 0;
    while true
      invariant polls <= |statuses|
      invariant forall i :: 0 <= i < polls ==> Waiting(statuses[i])
      decreases |statuses| - polls
    {
      if polls == |statuses| {
        PollsUnique(statuses, polls);
        return Unfinished, polls;
      }
      var reply := statuses[polls];
      polls := polls + 1;
      match reply {
        case Fail(f) =>
          PollsUnique(statuses, polls);
          return Raised(Call(f)), polls;
        case Ok(status) =>
          if status.finished {
            PollsUnique(statuses, polls);
            if status.code == 0 {
              return Done(()), polls;
            } else {
              return Raised(PublishFailed(status.code, status.error)), polls;
            }
          }
      }
    }
  }

  /** The status loop succeeds exactly at a finished status with code 0, ends
      with the publish error exactly at a finished status with another code,
      passes a failing call on, and runs out only when every status is
      unfinished. */
  lemma PollOutcomeCases(statuses: seq<Response<TaskStatus>>)
    ensures var n := Polls(statuses);
      && (PollOutcome(statuses).Done? <==>
            0 < n && statuses[n - 1].Ok? && statuses[n - 1].value.finished && statuses[n - 1].value.code == 0)
      && (forall code, message :: PollOutcome(statuses) == Raised(PublishFailed(code, message)) <==>
            0 < n && code != 0 && statuses[n - 1] == Ok(TaskStatus(true, code, message)))
      && (forall f :: PollOutcome(statuses) == Raised(Call(f)) <==> 0 < n && statuses[n - 1] == Fail(f))
      && (PollOutcome(statuses).Raised? ==> PollOutcome(statuses).error.Call? || PollOutcome(statuses).error.PublishFailed?)
      && (PollOutcome(statuses).Unfinished? <==> forall i :: 0 <= i < |statuses| ==> Waiting(statuses[i]))
  {
  }

  datatype Published = Published(record: PublishRecord, dashboardUrl: string)

  /** `n` polls of the deployment task. */
  function StatusCalls(task: string, n: nat): (calls: seq<Event>)
    ensures |calls| == n && forall i :: 0 <= i < n ==> calls[i] == TaskStatusCall(task)
  {
    seq(n, _ => TaskStatusCall(task))
  }

  /** The calls of the workspace's `try`: upload to the target's id, deploy
      the uploaded bundle, poll the deployment task, stopping at the first
      failing call. */
  function DeployCalls(record: PublishRecord, script: PublishScript): seq<Event> {
    [UploadBundleCall(record.id)] +
    match script.uploaded
    case Fail(_) => []
    case Ok(bundle) =>
      [DeployBundleCall(bundle)] +
      match script.deployed
      case Fail(_) => []
      case Ok(task) => StatusCalls(task, Polls(script.statuses))
  }

  /** How the workspace's `try` ends: the first failing call's error, else
      what polling decides; success gives the target and the content's
      dashboard URL. */
  function DeployOutcome(record: PublishRecord, content: Content, script: PublishScript): Outcome<Published> {
    match script.uploaded
    case Fail(f) => Raised(Call(f))
    case Ok(_) =>
      match script.deployed
      case Fail(f) => Raised(Call(f))
      case Ok(_) =>
        match PollOutcome(script.statuses)
        case Done(_) => Done(Published(record, content.dashboardUrl))
        case Raised(e) => Raised(e)
        case Unfinished => Unfinished
  }

  /** The body of the workspace's `try`: upload the bundle, deploy it, poll
      the deployment task. */
  method UploadAndDeploy(record: PublishRecord, content: Content, script: PublishScript)
    returns (r: Outcome<Published>, calls: seq<Event>)
    ensures r == DeployOutcome(record, content, script) && calls == DeployCalls(record, script)
    ensures 0 < |calls| && calls[0] == UploadBundleCall(record.id)
    ensures forall e :: e in calls ==> e.UploadBundleCall? || e.DeployBundleCall? || e.TaskStatusCall?
  {
    calls := [UploadBundleCall(record.id)];
    match script.uploaded {
      case Fail(f) =>
        r := Raised(Call(f));
      case Ok(bundle) =>
        calls := calls + [DeployBundleCall(bundle)];
        match script.deployed {
          case Fail(f) =>
            r := Raised(Call(f));
          case Ok(task) =>
            var polled, polls := PollTask(script.statuses);
            calls := calls + StatusCalls(task, polls);
            r := match polled
              case Done(_) => Done(Published(record, content.dashboardUrl))
              case Raised(e) => Raised(e)
              case Unfinished => Unfinished;
        }
    }
  }

  /** The workspace's events: created, the `try` calls, and cleanup in
      `finally` unless still polling. */
  function WorkspaceEvents(record: PublishRecord, content: Content, script: PublishScript): seq<Event> {
    [TempContextCreated] + DeployCalls(record, script)
      + (if DeployOutcome(record, content, script).Unfinished? then [] else [TempContextCleanup])
  }

  /** The temporary workspace around upload, deploy and poll: created first,
      cleaned up last on every way out, but not while the task is still
      being polled. */
  method InWorkspace(record: PublishRecord, content: Content, script: PublishScript)
    returns (r: Outcome<Published>, events: seq<Event>)
    ensures r == DeployOutcome(record, content, script) && events == WorkspaceEvents(record, content, script)
  {
    var work;
    // try
    r, work := UploadAndDeploy(record, content, script);
    events := [TempContextCreated] + work;
    // finally
    if !r.Unfinished? {
      events := events + [TempContextCleanup];
    }
  }

  /** After resolution: the render, then (unless it failed) the workspace. */
  function RenderEvents(record: PublishRecord, content: Content, script: PublishScript): seq<Event> {
    [RenderCall(record.url)] + (if script.rendered.Fail? then [] else WorkspaceEvents(record, content, script))
  }

  function RenderOutcome(record: PublishRecord, content: Content, script: PublishScript): Outcome<Published> {
    match script.rendered
    case Fail(f) => Raised(Call(f))
    case Ok(_) => DeployOutcome(record, content, script)
  }

  /** Renders for the target's URL, then deploys inside the workspace; a
      failed render stops before the workspace exists. */
  method RenderThenDeploy(record: PublishRecord, content: Content, script: PublishScript)
    returns (r: Outcome<Published>, events: seq<Event>)
    ensures r == RenderOutcome(record, content, script) && events == RenderEvents(record, content, script)
  {
    events := [RenderCall(record.url)];
    if script.rendered.Fail? {
      r := Raised(Call(script.rendered.failure));
      return;
    }
    var work;
    r, work := InWorkspace(record, content, script);
    events := events + work;
  }

  /** Everything `publish` does, as a trace of calls. */
  function PublishTrace(baseName: string, target: Option<PublishRecord>, script: PublishScript): seq<Event> {
    ResolveCalls(baseName, target, script) +
    match ResolveOutcome(target, script)
    case Done(resolved) => RenderEvents(resolved.target, resolved.content, script)
    case _ => []
  }

  /** How `publish` ends. */
  function PublishOutcome(target: Option<PublishRecord>, script: PublishScript): Outcome<Published> {
    match ResolveOutcome(target, script)
    case Done(resolved) => RenderOutcome(resolved.target, resolved.content, script)
    case Raised(e) => Raised(e)
    case Unfinished => Unfinished
  }

  /** Publishes: resolve the content, render, then inside a temporary
      workspace upload, deploy and poll; the workspace is cleaned up on every
      way out of that part. */
  method Publish(baseName: string, target: Option<PublishRecord>, script: PublishScript)
    returns (r: Outcome<Published>, trace: seq<Event>)
    ensures r == PublishOutcome(target, script) && trace == PublishTrace(baseName, target, script)
  {
    var resolved, calls := ResolveContent(baseName, target, script);
    trace := calls;
    if !resolved.Done? {
      r := if resolved.Raised? then Raised(resolved.error) else Unfinished;
      return;
    }
    var events;
    r, events := RenderThenDeploy(resolved.value.target, resolved.value.content, script);
    trace := calls + events;
  }

  /** Upload, deployment and polling happen in the workspace and make no
      other call. */
  lemma DeployCallsKinds(record: PublishRecord, script: PublishScript)
    ensures DeployCalls(record, script)[0] == UploadBundleCall(record.id)
    ensures forall e :: e in DeployCalls(record, script) ==>
              e.UploadBundleCall? || e.DeployBundleCall? || e.TaskStatusCall?
  {
  }

  /** The workspace is created once and first, and cleaned up exactly once,
      as the last event, on every way out except still polling. */
  lemma {:induction false} WorkspaceCleanedUp(record: PublishRecord, content: Content, script: PublishScript)
    ensures var events := WorkspaceEvents(record, content, script);
      && 0 < |events| && events[0] == TempContextCreated
      && multiset(events)[TempContextCreated] == 1
      && (!DeployOutcome(record, content, script).Unfinished? ==>
            multiset(events)[TempContextCleanup] == 1 && events[|events| - 1] == TempContextCleanup)
      && (DeployOutcome(record, content, script).Unfinished? ==> TempContextCleanup !in events)
      && forall e :: e in events ==> !e.GetContentCall? && !e.CreateContentCall? && !e.RenderCall?
  {
    var work := DeployCalls(record, script);
    DeployCallsKinds(record, script);
    var cleanup := if DeployOutcome(record, content, script).Unfinished? then [] else [TempContextCleanup];
    WorkspaceShape(work, cleanup);
  }

  /** Counting the workspace events around calls that are neither. */
  lemma WorkspaceShape(work: seq<Event>, cleanup: seq<Event>)
    requires forall e :: e in work ==> e.UploadBundleCall? || e.DeployBundleCall? || e.TaskStatusCall?
    requires cleanup == [] || cleanup == [TempContextCleanup]
    ensures var events := [TempContextCreated] + work + cleanup;
      && events[0] == TempContextCreated
      && multiset(events)[TempContextCreated] == 1
      && multiset(events)[TempContextCleanup] == |cleanup|
      && (cleanup != [] ==> events[|events| - 1] == TempContextCleanup)
      && (TempContextCleanup in events <==> cleanup != [])
      && forall e :: e in events ==> !e.GetContentCall? && !e.CreateContentCall? && !e.RenderCall?
  {
    var events := [TempContextCreated] + work + cleanup;
    assert TempContextCreated !in work && TempContextCleanup !in work;
    assert multiset(events) == multiset{TempContextCreated} + multiset(work) + multiset(cleanup);
  }

  /** Resolution only fetches or creates: with a target, one `getContent`;
      without one, creation calls only. */
  lemma ResolveCallsKinds(baseName: string, target: Option<PublishRecord>, script: PublishScript)
    ensures target.Some? ==> ResolveCalls(baseName, target, script) == [GetContentCall(target.value.id)]
    ensures target.None? ==> forall e :: e in ResolveCalls(baseName, target, script) ==> e.CreateContentCall?
  {
  }

  /** After resolution: the render comes first and once; the workspace is
      created at most once and only after a successful render, and a
      successful publish created it; cleanup matches creation and comes last,
      unless still polling. */
  lemma {:induction false} RenderThenWorkspace(record: PublishRecord, content: Content, script: PublishScript)
    ensures var events := RenderEvents(record, content, script);
      var r := RenderOutcome(record, content, script);
      && 0 < |events| && events[0] == RenderCall(record.url)
      && (forall e :: e in events ==> !e.GetContentCall? && !e.CreateContentCall?)
      && multiset(events)[TempContextCreated] <= 1
      && (TempContextCreated in events ==> script.rendered.Ok?)
      && (!r.Unfinished? ==> multiset(events)[TempContextCleanup] == multiset(events)[TempContextCreated])
      && (r.Unfinished? ==> TempContextCleanup !in events)
      && (TempContextCleanup in events ==> events[|events| - 1] == TempContextCleanup)
      && (r.Done? ==> TempContextCreated in events)
  {
    var events := RenderEvents(record, content, script);
    if script.rendered.Ok? {
      WorkspaceCleanedUp(record, content, script);
      var work := WorkspaceEvents(record, content, script);
      assert events == [RenderCall(record.url)] + work;
      assert multiset(events) == multiset{RenderCall(record.url)} + multiset(work);
    } else {
      assert events == [RenderCall(record.url)];
    }
  }

  /** With a target, `publish` first calls `getContent` on its id, once, and
      creates nothing; without one it fetches nothing. */
  lemma {:induction false} PublishResolvesFirst(baseName: string, target: Option<PublishRecord>, script: PublishScript)
    ensures var trace := PublishTrace(baseName, target, script);
      && (target.Some? ==>
            && 0 < |trace| && trace[0] == GetContentCall(target.value.id)
            && multiset(trace)[GetContentCall(target.value.id)] == 1
            && forall e :: e in trace ==> !e.CreateContentCall?)
      && (target.None? ==> forall e :: e in trace ==> !e.GetContentCall?)
  {
    var calls := ResolveCalls(baseName, target, script);
    ResolveCallsKinds(baseName, target, script);
    var resolved := ResolveOutcome(target, script);
    if resolved.Done? {
      var events := RenderEvents(resolved.value.target, resolved.value.content, script);
      RenderThenWorkspace(resolved.value.target, resolved.value.content, script);
      assert PublishTrace(baseName, target, script) == calls + events;
      assert multiset(calls + events) == multiset(calls) + multiset(events);
    } else {
      assert PublishTrace(baseName, target, script) == calls;
    }
  }

  /** Calls made before the workspace change neither its counts nor which
      event comes last. */
  lemma PrefixOutsideWorkspace(calls: seq<Event>, events: seq<Event>)
    requires TempContextCreated !in calls && TempContextCleanup !in calls
    ensures multiset(calls + events)[TempContextCreated] == multiset(events)[TempContextCreated]
    ensures multiset(calls + events)[TempContextCleanup] == multiset(events)[TempContextCleanup]
    ensures TempContextCreated in calls + events <==> TempContextCreated in events
    ensures TempContextCleanup in calls + events <==> TempContextCleanup in events
    ensures TempContextCleanup in events ==> (calls + events)[|calls + events| - 1] == events[|events| - 1]
  {
    assert multiset(calls + events) == multiset(calls) + multiset(events);
  }

  /** The workspace in `publish`'s trace: created at most once and only after
      a successful render, and by every successful publish; cleanup matches
      creation and comes last, unless still polling. */
  lemma {:induction false} PublishCleansUp(baseName: string, target: Option<PublishRecord>, script: PublishScript)
    ensures var trace := PublishTrace(baseName, target, script);
      var r := PublishOutcome(target, script);
      && multiset(trace)[TempContextCreated] <= 1
      && (TempContextCreated in trace ==> script.rendered.Ok?)
      && (!r.Unfinished? ==> multiset(trace)[TempContextCleanup] == multiset(trace)[TempContextCreated])
      && (r.Unfinished? ==> TempContextCleanup !in trace)
      && (TempContextCleanup in trace ==> trace[|trace| - 1] == TempContextCleanup)
      && (r.Done? ==> TempContextCreated in trace)
  {
    var calls := ResolveCalls(baseName, target, script);
    ResolveCallsKinds(baseName, target, script);
    assert TempContextCreated !in calls && TempContextCleanup !in calls;
    var resolved := ResolveOutcome(target, script);
    if resolved.Done? {
      var record, content := resolved.value.target, resolved.value.content;
      var events := RenderEvents(record, content, script);
      RenderThenWorkspace(record, content, script);
      PrefixOutsideWorkspace(calls, events);
      assert PublishTrace(baseName, target, script) == calls + events;
      assert PublishOutcome(target, script) == RenderOutcome(record, content, script);
    } else {
      assert PublishTrace(baseName, target, script) == calls;
      assert multiset(calls)[TempContextCreated] == 0 && multiset(calls)[TempContextCleanup] == 0;
    }
  }

  /** `publish` returns exactly when the content is found or created and the
      render, upload, deployment and polling all succeed; it returns the
      target (or the record of the created content) with the content's
      dashboard URL. */
  lemma PublishSucceedsIff(target: Option<PublishRecord>, script: PublishScript)
    ensures PublishOutcome(target, script).Done? <==>
              && (if target.Some? then script.fetched.Ok? else CreateOutcome(script.attempts).Done?)
              && script.rendered.Ok? && script.uploaded.Ok? && script.deployed.Ok?
              && PollOutcome(script.statuses).Done?
    ensures PublishOutcome(target, script).Done? && target.Some? ==>
              PublishOutcome(target, script).value == Published(target.value, script.fetched.value.dashboardUrl)
    ensures PublishOutcome(target, script).Done? && target.None? ==>
              var content := CreateOutcome(script.attempts).value;
              PublishOutcome(target, script).value == Published(NewRecord(content), content.dashboardUrl)
  {
  }

  /** The first step that fails decides the error `publish` throws; a task
      that finishes with a non-zero code throws the publish error. */
  lemma PublishFailsAtFirstFailure(target: Option<PublishRecord>, script: PublishScript)
    ensures target.Some? && script.fetched.Fail? ==>
              PublishOutcome(target, script) == Raised(Call(script.fetched.failure))
    ensures target.None? && CreateOutcome(script.attempts).Raised? ==>
              PublishOutcome(target, script) == Raised(CreateOutcome(script.attempts).error)
    ensures ResolveOutcome(target, script).Done? ==>
              && (script.rendered.Fail? ==> PublishOutcome(target, script) == Raised(Call(script.rendered.failure)))
              && (script.rendered.Ok? && script.uploaded.Fail? ==>
                    PublishOutcome(target, script) == Raised(Call(script.uploaded.failure)))
              && (script.rendered.Ok? && script.uploaded.Ok? && script.deployed.Fail? ==>
                    PublishOutcome(target, script) == Raised(Call(script.deployed.failure)))
              && (script.rendered.Ok? && script.uploaded.Ok? && script.deployed.Ok? ==>
                    (match PollOutcome(script.statuses)
                     case Done(_) => PublishOutcome(target, script).Done?
                     case Raised(e) => PublishOutcome(target, script) == Raised(e)
                     case Unfinished => PublishOutcome(target, script).Unfinished?))
    ensures PublishOutcome(target, script).Unfinished? <==>
              || (target.None? && CreateOutcome(script.attempts).Unfinished?)
              || (&& ResolveOutcome(target, script).Done?
                  && script.rendered.Ok? && script.uploaded.Ok? && script.deployed.Ok?
                  && PollOutcome(script.statuses).Unfinished?)
  {
  }

  /** The calls in order once render, upload and deployment succeed: the
      resolution calls, the render at the target's URL, the workspace, the
      upload to the target's id, the deployment of the uploaded bundle, one
      status call on the deployment task per poll, and cleanup unless still
      polling. */
  lemma PublishCallsInOrder(baseName: string, target: Option<PublishRecord>, script: PublishScript)
    requires ResolveOutcome(target, script).Done?
    requires script.rendered.Ok? && script.uploaded.Ok? && script.deployed.Ok?
    ensures var record := ResolveOutcome(target, script).value.target;
      PublishTrace(baseName, target, script)
        == ResolveCalls(baseName, target, script)
           + [RenderCall(record.url), TempContextCreated, UploadBundleCall(record.id),
              DeployBundleCall(script.uploaded.value)]
           + StatusCalls(script.deployed.value, Polls(script.statuses))
           + (if PollOutcome(script.statuses).Unfinished? then [] else [TempContextCleanup])
  {
    var resolved := ResolveOutcome(target, script).value;
    var record, content := resolved.target, resolved.content;
    var polls := StatusCalls(script.deployed.value, Polls(script.statuses));
    var cleanup := if PollOutcome(script.statuses).Unfinished? then [] else [TempContextCleanup];
    var deploy := DeployCalls(record, script);
    assert deploy == [UploadBundleCall(record.id), DeployBundleCall(script.uploaded.value)] + polls;
    assert DeployOutcome(record, content, script).Unfinished? == PollOutcome(script.statuses).Unfinished?;
    assert WorkspaceEvents(record, content, script) == [TempContextCreated] + deploy + cleanup;
    assert RenderEvents(record, content, script) == [RenderCall(record.url)] + ([TempContextCreated] + deploy + cleanup);
  }

  // ----- The rest of the provider -----

  /** `resolveTarget` hands back the record it is given. */
  function ResolveTarget(account: AccountToken, target: PublishRecord): (r: PublishRecord)
    ensures r == target
  {
    target
  }

  datatype Url = Url(scheme: string, host: string, path: string)

  /** `formatTargetUrl`: the URL's origin. */
  function FormatTargetUrl(url: Url): string {
    url.scheme + "//" + url.host
  }

  /** The displayed URL depends on scheme and host only. */
  lemma FormatTargetUrlIgnoresPath(url: Url, path: string)
    ensures FormatTargetUrl(url.(path := path)) == FormatTargetUrl(url)
  {
  }
}
