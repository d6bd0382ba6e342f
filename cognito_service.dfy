/**
 * The provisioning-and-authentication orchestrator (class CognitoService,
 * src/services/cognitoService.js) against an identity provider whose replies
 * are given, not computed: a provider is any function from the requests it
 * has received so far to its reply to the last one.
 */
module Cognito {
  import opened Wrappers
  import Cpf

  const UserNotFound := "UserNotFoundException"
  const UsernameExists := "UsernameExistsException"
  const AlreadyExistsMessage := "Usuário já existe no Cognito"
  const CreatedMessage := "Usuário criado com sucesso no Cognito"
  const AuthErrorMessage := "Erro na autenticação"
  const FinalAuthFailedMessage := "Falha ao obter JWT após criação do usuário."
  const DefaultExpiresIn := 3600
  /** The token type of the first-attempt path, trailing space included. */
  const FirstAttemptTokenType := "Bearer "
  const TokenType := "Bearer"
  /** What reading `authResult.tokens.IdToken` throws when `tokens` is undefined. */
  const MissingTokens := JsError("TypeError", "Cannot read properties of undefined (reading 'IdToken')")

  /** A JavaScript error, as this code reads it: its `name` and its `message`. */
  datatype JsError = JsError(name: string, message: string)

  /** The outcome of a JavaScript call that may throw. */
  datatype Thrown<T> = Returned(value: T) | Threw(error: JsError)

  /** `AuthenticationResult` of an AdminInitiateAuth reply; `None` is `undefined`. */
  datatype AuthTokens = AuthTokens(idToken: Option<string>, accessToken: Option<string>, expiresIn: Option<int>)

  /** The request handed to `this.client.send`, with the fields this code fills in. */
  datatype Command =
    | AdminGetUser(username: string)
    | SignUp(username: string, password: string, email: string, cpfAttribute: string)
    | AdminSetUserPassword(username: string, password: string, permanent: bool)
    | AdminInitiateAuth(username: string, password: string)

  /** The fields of a provider response that this code reads. */
  datatype Response = Response(userSub: Option<string>, authenticationResult: Option<AuthTokens>)

  /** A call that resolves to a response or rejects with an error. */
  datatype Reply = Ok(response: Response) | Err(error: JsError)

  datatype SignUpResult = SignUpResult(success: bool, userSub: Option<string>, message: string)

  datatype AuthResult = AuthSucceeded(tokens: Option<AuthTokens>) | AuthFailed(message: string, error: string)

  datatype JwtResult = Issued(token: Option<string>, tokenType: string, expiresIn: int) | JwtFailed(message: string)

  /** The identity provider: a log of the requests sent to it and a scripted reply to each. */
  class Provider {
    /** The reply to the last request of a request history. */
    const respond: seq<Command> -> Reply
    var log: seq<Command>

    constructor (respond: seq<Command> -> Reply)
      ensures this.respond == respond && log == []
    {
      this.respond := respond;
      log := [];
    }

    method Send(cmd: Command) returns (reply: Reply)
      modifies this
      ensures log == old(log) + [cmd]
      ensures reply == respond(log)
    {
      log := log + [cmd];
      reply := respond(log);
    }
  }

  // ---------------------------------------------------------------------------
  // generateTemporaryPasswordFromUsername

  /** The sum of the character codes of a username, folded from the left. */
  function Seed(username: string): (seed: int)
    ensures seed >= 0
  {
    if username == [] then 0
    else Seed(username[..|username| - 1]) + username[|username| - 1] as int
  }

  /**
   * The derived password. `randomPart` stands for the floating-point part,
   * a fixed function of the seed.
   */
  function TemporaryPassword(username: string, randomPart: int -> string): (p: string)
    ensures |p| == 9 + |randomPart(Seed(username))|
    ensures p[..8] == "TempPass" && p[8..|p| - 1] == randomPart(Seed(username)) && p[|p| - 1] == '!'
  {
    "TempPass" + randomPart(Seed(username)) + "!"
  }

  lemma {:induction false} SeedConcat(a: string, b: string)
    ensures Seed(a + b) == Seed(a) + Seed(b)
  {
    if b == [] {
      assert a + b == a;
    } else {
      assert (a + b)[..|a + b| - 1] == a + b[..|b| - 1];
      SeedConcat(a, b[..|b| - 1]);
    }
  }

  /** Taking one character out of a username takes it out of its multiset. */
  lemma MultisetWithout(b: string, i: nat)
    requires i < |b|
    ensures multiset(b[..i] + b[i + 1..]) == multiset(b) - multiset{b[i]}
  {
    var front, back := b[..i], b[i + 1..];
    assert b == front + [b[i]] + back;
    assert multiset(b) == multiset(front) + multiset{b[i]} + multiset(back);
  }

  /** Appending a character adds its code to the seed. */
  lemma SeedSnoc(front: string, c: char)
    ensures Seed(front + [c]) == Seed(front) + c as int
  {
    assert (front + [c])[..|front|] == front;
  }

  lemma SplitAround(b: string, i: nat)
    requires i < |b|
    ensures b == (b[..i] + [b[i]]) + b[i + 1..]
  {
  }

  /** Taking one character out of a username takes its code out of the seed. */
  lemma SeedWithout(b: string, i: nat)
    requires i < |b|
    ensures Seed(b) == Seed(b[..i] + b[i + 1..]) + b[i] as int
  {
    var front, back := b[..i], b[i + 1..];
    var withChar := front + [b[i]];
    SplitAround(b, i);
    SeedSnoc(front, b[i]);
    SeedConcat(withChar, back);
    SeedConcat(front, back);
  }

  /** The seed forgets the order of the characters. */
  lemma {:induction false} SeedOfPermutation(a: string, b: string)
    requires multiset(a) == multiset(b)
    ensures Seed(a) == Seed(b)
  {
    if a == [] {
      assert |b| == |multiset(b)| == 0;
    } else {
      var x := a[|a| - 1];
      assert x in multiset(b);
      var i :| 0 <= i < |b| && b[i] == x;
      MultisetWithout(a, |a| - 1);
      MultisetWithout(b, i);
      SeedWithout(a, |a| - 1);
      SeedWithout(b, i);
      assert a[..|a| - 1] + a[|a|..] == a[..|a| - 1];
      SeedOfPermutation(a[..|a| - 1], b[..i] + b[i + 1..]);
    }
  }

  /** Two usernames with the same characters in any order get the same password. */
  lemma PasswordOfPermutation(a: string, b: string, randomPart: int -> string)
    requires multiset(a) == multiset(b)
    ensures TemporaryPassword(a, randomPart) == TemporaryPassword(b, randomPart)
  {
    SeedOfPermutation(a, b);
  }

  /**
   * Every eleven-digit username has a seed in 528..627: all CPFs share at
   * most one hundred passwords.
   */
  lemma {:induction false} DigitSeedRange(s: string)
    requires Cpf.AllDigits(s)
    ensures 48 * |s| <= Seed(s) <= 57 * |s|
  {
    if s != [] {
      DigitSeedRange(s[..|s| - 1]);
    }
  }

  lemma CpfSeedRange(cpf: string)
    requires |cpf| == 11 && Cpf.AllDigits(cpf)
    ensures 528 <= Seed(cpf) <= 627
  {
    DigitSeedRange(cpf);
  }

  // ---------------------------------------------------------------------------
  // How each wrapper reads a provider reply

  /** userExists: a found user is `true`, only UserNotFoundException is `false`, any other error is rethrown. */
  function ExistenceOf(reply: Reply): (r: Thrown<bool>)
    ensures r == Returned(true) <==> reply.Ok?
    ensures r == Returned(false) <==> reply.Err? && reply.error.name == UserNotFound
    ensures r.Threw? ==> reply.Err? && r.error == reply.error
  {
    match reply
    case Ok(_) => Returned(true)
    case Err(e) => if e.name == UserNotFound then Returned(false) else Threw(e)
  }

  /** signUpUser: an existing user is a non-fatal failure, any other error is rethrown. */
  function SignUpOutcome(reply: Reply): (r: Thrown<SignUpResult>)
    ensures r.Returned? && r.value.success <==> reply.Ok?
    ensures r.Returned? && !r.value.success <==> reply.Err? && reply.error.name == UsernameExists
    ensures r.Returned? && r.value.success ==> r.value.userSub == reply.response.userSub && r.value.message == CreatedMessage
    ensures r.Returned? && !r.value.success ==> r.value.message == AlreadyExistsMessage
    ensures r.Threw? ==> r.error == reply.error
  {
    match reply
    case Ok(response) => Returned(SignUpResult(true, response.userSub, CreatedMessage))
    case Err(e) =>
      if e.name == UsernameExists then Returned(SignUpResult(false, None, AlreadyExistsMessage))
      else Threw(e)
  }

  /** authenticateUser: never throws; every error becomes a failure carrying the error's message. */
  function AuthOutcome(reply: Reply): (r: AuthResult)
    ensures r.AuthSucceeded? <==> reply.Ok?
    ensures r.AuthSucceeded? ==> r.tokens == reply.response.authenticationResult
    ensures r.AuthFailed? ==> r.message == AuthErrorMessage && r.error == reply.error.message
  {
    match reply
    case Ok(response) => AuthSucceeded(response.authenticationResult)
    case Err(e) => AuthFailed(AuthErrorMessage, e.message)
  }

  predicate TruthyString(v: Option<string>) {
    v.Some? && v.value != ""
  }

  predicate TruthyNumber(v: Option<int>) {
    v.Some? && v.value != 0
  }

  /**
   * The success object getCognitoJWT builds from `authResult.tokens`:
   * `IdToken || AccessToken` and `ExpiresIn || 3600`. Undefined tokens make
   * the field access throw.
   */
  function JwtOf(tokens: Option<AuthTokens>, tokenType: string): (r: Thrown<JwtResult>)
    ensures r.Threw? <==> tokens.None?
    ensures r.Threw? ==> r.error == MissingTokens
    ensures r.Returned? ==> r.value.Issued? && r.value.tokenType == tokenType && r.value.expiresIn != 0
    ensures r.Returned? && TruthyString(tokens.value.idToken) ==> r.value.token == tokens.value.idToken
    ensures r.Returned? && !TruthyString(tokens.value.idToken) ==> r.value.token == tokens.value.accessToken
    ensures r.Returned? && TruthyNumber(tokens.value.expiresIn) ==> r.value.expiresIn == tokens.value.expiresIn.value
    ensures r.Returned? && !TruthyNumber(tokens.value.expiresIn) ==> r.value.expiresIn == DefaultExpiresIn
  {
    match tokens
    case None => Threw(MissingTokens)
    case Some(t) =>
      var token := if TruthyString(t.idToken) then t.idToken else t.accessToken;
      var expiresIn := if TruthyNumber(t.expiresIn) then t.expiresIn.value else DefaultExpiresIn;
      Returned(Issued(token, tokenType, expiresIn))
  }

  /** getCognitoJWT's catch: an error becomes a failure carrying its message. */
  function Caught(t: Thrown<JwtResult>): (r: JwtResult)
    ensures r.JwtFailed? <==> t.Threw? || t.value.JwtFailed?
    ensures t.Threw? ==> r.message == t.error.message
    ensures r.Issued? ==> t == Returned(r)
  {
    match t
    case Returned(v) => v
    case Threw(e) => JwtFailed(e.message)
  }

  function SignUpCommand(cpf: string, password: string): Command {
    SignUp(cpf, password, cpf + "@temp.com", cpf)
  }

  /**
   * Every sequence of requests one getCognitoJWT call may send: the lookup,
   * perhaps a first authentication, then perhaps a sign-up (followed by the
   * set-permanent request when it succeeds) and a final authentication.
   */
  function JwtTraces(cpf: string, password: string): set<seq<Command>> {
    var get, auth := AdminGetUser(cpf), AdminInitiateAuth(cpf, password);
    var signUp, setPermanent := SignUpCommand(cpf, password), AdminSetUserPassword(cpf, password, true);
    {[get], [get, auth],
     [get, signUp], [get, signUp, auth], [get, signUp, setPermanent, auth],
     [get, auth, signUp], [get, auth, signUp, auth], [get, auth, signUp, setPermanent, auth]}
  }

  /**
   * No loops: one lookup first, at most one sign-up and one set-permanent
   * request, at most two authentications, and one password throughout.
   */
  lemma JwtTraceBounds(t: seq<Command>, cpf: string, password: string)
    requires t in JwtTraces(cpf, password)
    ensures 1 <= |t| <= 5 && t[0] == AdminGetUser(cpf)
    ensures forall i :: 0 < i < |t| ==> !t[i].AdminGetUser?
    ensures forall i, j :: 0 <= i < j < |t| && t[i].SignUp? ==> !t[j].SignUp?
    ensures forall i, j :: 0 <= i < j < |t| && t[i].AdminSetUserPassword? ==> !t[j].AdminSetUserPassword?
    ensures forall i, j, k :: 0 <= i < j < k < |t| && t[i].AdminInitiateAuth? && t[j].AdminInitiateAuth? ==> !t[k].AdminInitiateAuth?
    ensures forall i :: 0 <= i < |t| && !t[i].AdminGetUser? ==> t[i].username == cpf && t[i].password == password
  {
  }

  /** A run of getCognitoJWT: its result and the requests it sent, in order. */
  datatype Run = Run(result: JwtResult, calls: seq<Command>)

  /**
   * getCognitoJWT for a provider that replies with `respond` and has already
   * received `history`.
   */
  function JwtRun(respond: seq<Command> -> Reply, history: seq<Command>, cpf: string, password: string): (r: Run)
    ensures 1 <= |r.calls| <= 5 && r.calls[0] == AdminGetUser(cpf)
    ensures r.result.Issued? ==> r.calls[|r.calls| - 1] == AdminInitiateAuth(cpf, password)
  {
    var get, auth := AdminGetUser(cpf), AdminInitiateAuth(cpf, password);
    match ExistenceOf(respond(history + [get]))
    case Threw(e) => Run(JwtFailed(e.message), [get])
    case Returned(found) =>
      var first := AuthOutcome(respond(history + [get, auth]));
      if found && first.AuthSucceeded? then
        Run(Caught(JwtOf(first.tokens, FirstAttemptTokenType)), [get, auth])
      else
        var before := (if found then [get, auth] else [get]) + [SignUpCommand(cpf, password)];
        match SignUpOutcome(respond(history + before))
        case Threw(e) => Run(JwtFailed(e.message), before)
        case Returned(signUp) =>
          var created := before + (if signUp.success then [AdminSetUserPassword(cpf, password, true)] else []);
          if !signUp.success && signUp.message != AlreadyExistsMessage then
            Run(JwtFailed(signUp.message), created)
          else
            var calls := created + [auth];
            match AuthOutcome(respond(history + calls))
            case AuthSucceeded(tokens) => Run(Caught(JwtOf(tokens, TokenType)), calls)
            case AuthFailed(_, _) => Run(JwtFailed(FinalAuthFailedMessage), calls)
  }

  /** Every run sends one of the request sequences of JwtTraces, so it is bounded as JwtTraceBounds says. */
  lemma JwtRunTrace(respond: seq<Command> -> Reply, history: seq<Command>, cpf: string, password: string)
    ensures JwtRun(respond, history, cpf, password).calls in JwtTraces(cpf, password)
  {
    var get, auth := AdminGetUser(cpf), AdminInitiateAuth(cpf, password);
    var signUp, setPermanent := SignUpCommand(cpf, password), AdminSetUserPassword(cpf, password, true);
    var found := ExistenceOf(respond(history + [get]));
    if found.Returned? && !(found.value && AuthOutcome(respond(history + [get, auth])).AuthSucceeded?) {
      var start := if found.value then [get, auth] else [get];
      var before := start + [signUp];
      var traces := JwtTraces(cpf, password);
      assert before + [] == before;
      if found.value {
        assert before == [get, auth, signUp] && before in traces;
        assert before + [auth] == [get, auth, signUp, auth];
        assert before + [setPermanent] + [auth] == [get, auth, signUp, setPermanent, auth];
      } else {
        assert before == [get, signUp] && before in traces;
        assert before + [auth] == [get, signUp, auth];
        assert before + [setPermanent] + [auth] == [get, signUp, setPermanent, auth];
      }
    }
  }

  /** A lookup error other than UserNotFoundException ends the run with that error's message. */
  lemma LookupErrorIsFatal(respond: seq<Command> -> Reply, history: seq<Command>, cpf: string, password: string)
    requires var reply := respond(history + [AdminGetUser(cpf)]);
      reply.Err? && reply.error.name != UserNotFound
    ensures var run := JwtRun(respond, history, cpf, password);
      run == Run(JwtFailed(respond(history + [AdminGetUser(cpf)]).error.message), [AdminGetUser(cpf)])
  {
  }

  /**
   * An existing user whose first authentication succeeds is never signed up:
   * the run stops there, with token type "Bearer " (trailing space).
   */
  lemma FirstAuthenticationSkipsSignUp(respond: seq<Command> -> Reply, history: seq<Command>, cpf: string, password: string)
    requires respond(history + [AdminGetUser(cpf)]).Ok?
    requires respond(history + [AdminGetUser(cpf), AdminInitiateAuth(cpf, password)]).Ok?
    ensures var run := JwtRun(respond, history, cpf, password);
      var tokens := respond(history + [AdminGetUser(cpf), AdminInitiateAuth(cpf, password)]).response.authenticationResult;
      && run.calls == [AdminGetUser(cpf), AdminInitiateAuth(cpf, password)]
      && (forall i :: 0 <= i < |run.calls| ==> !run.calls[i].SignUp?)
      && run.result == Caught(JwtOf(tokens, FirstAttemptTokenType))
      && (tokens.Some? ==> run.result.Issued? && run.result.tokenType == "Bearer ")
  {
  }

  /** An absent user is signed up without any authentication attempt before it. */
  lemma AbsentUserIsSignedUpFirst(respond: seq<Command> -> Reply, history: seq<Command>, cpf: string, password: string)
    requires var reply := respond(history + [AdminGetUser(cpf)]);
      reply.Err? && reply.error.name == UserNotFound
    ensures var calls := JwtRun(respond, history, cpf, password).calls;
      |calls| >= 2 && calls[1] == SignUpCommand(cpf, password)
  {
  }

  /**
   * What follows the sign-up request: a created user has the password made
   * permanent and is authenticated; an existing user (another request won
   * the race) is authenticated all the same; any other error ends the run.
   */
  lemma SignUpOutcomes(respond: seq<Command> -> Reply, history: seq<Command>, cpf: string, password: string, k: nat)
    requires var calls := JwtRun(respond, history, cpf, password).calls;
      k < |calls| && calls[k].SignUp?
    ensures var run := JwtRun(respond, history, cpf, password);
      var reply := respond(history + run.calls[..k + 1]);
      && (reply.Ok? ==>
            && |run.calls| == k + 3
            && run.calls[k + 1] == AdminSetUserPassword(cpf, password, true)
            && run.calls[k + 2] == AdminInitiateAuth(cpf, password))
      && (reply.Err? && reply.error.name == UsernameExists ==>
            |run.calls| == k + 2 && run.calls[k + 1] == AdminInitiateAuth(cpf, password))
      && (reply.Err? && reply.error.name != UsernameExists ==>
            |run.calls| == k + 1 && run.result == JwtFailed(reply.error.message))
  {
    var run := JwtRun(respond, history, cpf, password);
    var get := AdminGetUser(cpf);
    var found := respond(history + [get]).Ok?;
    var before := (if found then [get, AdminInitiateAuth(cpf, password)] else [get]) + [SignUpCommand(cpf, password)];
    assert k == |before| - 1;
    assert run.calls[..k + 1] == before;
  }

  /** When a run ends with an authentication after a sign-up, that authentication decides the result. */
  lemma FinalAuthenticationDecides(respond: seq<Command> -> Reply, history: seq<Command>, cpf: string, password: string)
    requires var calls := JwtRun(respond, history, cpf, password).calls;
      |calls| >= 3 && calls[|calls| - 1].AdminInitiateAuth?
    ensures var run := JwtRun(respond, history, cpf, password);
      match AuthOutcome(respond(history + run.calls))
      case AuthSucceeded(tokens) => run.result == Caught(JwtOf(tokens, TokenType))
      case AuthFailed(_, _) => run.result == JwtFailed(FinalAuthFailedMessage)
  {
  }

  /** A token is issued only by a successful authentication, and "Bearer " only by the first one. */
  lemma IssuedOnlyAfterAuthentication(respond: seq<Command> -> Reply, history: seq<Command>, cpf: string, password: string)
    ensures var run := JwtRun(respond, history, cpf, password);
      run.result.Issued? ==>
        && run.calls[|run.calls| - 1] == AdminInitiateAuth(cpf, password)
        && respond(history + run.calls).Ok?
        && respond(history + run.calls).response.authenticationResult.Some?
        && (run.result.tokenType == FirstAttemptTokenType <==> |run.calls| == 2)
        && (run.result.tokenType == TokenType <==> |run.calls| > 2)
  {
  }

  /** The orchestrator, over an injected provider. */
  class CognitoService {
    const provider: Provider
    /** `Math.abs(Math.sin(seed) * 10000).toString(36).slice(-6)`, a fixed function of the seed. */
    const randomPart: int -> string

    constructor (provider: Provider, randomPart: int -> string)
      ensures this.provider == provider && this.randomPart == randomPart
    {
      this.provider := provider;
      this.randomPart := randomPart;
    }

    function Password(username: string): string {
      TemporaryPassword(username, randomPart)
    }

    method UserExists(username: string) returns (r: Thrown<bool>)
      modifies provider
      ensures provider.log == old(provider.log) + [AdminGetUser(username)]
      ensures r == ExistenceOf(provider.respond(provider.log))
    {
      var reply := provider.Send(AdminGetUser(username));
      r := ExistenceOf(reply);
    }

    /** Best effort: the reply is ignored, so no failure propagates. */
    method SetUserPassword(username: string, password: string)
      modifies provider
      ensures provider.log == old(provider.log) + [AdminSetUserPassword(username, password, true)]
    {
      var _ := provider.Send(AdminSetUserPassword(username, password, true));
    }

    /** Signs up with the derived password and, when that succeeds, makes the password permanent. */
    method SignUpUser(cpf: string) returns (r: Thrown<SignUpResult>)
      modifies provider
      ensures var password := Password(cpf);
        var reply := provider.respond(old(provider.log) + [SignUpCommand(cpf, password)]);
        && r == SignUpOutcome(reply)
        && provider.log == old(provider.log) + [SignUpCommand(cpf, password)]
             + (if reply.Ok? then [AdminSetUserPassword(cpf, password, true)] else [])
    {
      var password := Password(cpf);
      var reply := provider.Send(SignUpCommand(cpf, password));
      if reply.Ok? {
        SetUserPassword(cpf, password);
      }
      r := SignUpOutcome(reply);
    }

    method AuthenticateUser(username: string) returns (r: AuthResult)
      modifies provider
      ensures provider.log == old(provider.log) + [AdminInitiateAuth(username, Password(username))]
      ensures r == AuthOutcome(provider.respond(provider.log))
    {
      var reply := provider.Send(AdminInitiateAuth(username, Password(username)));
      r := AuthOutcome(reply);
    }

    /** Never throws: every error ends as a failure result. */
    method GetCognitoJWT(cpf: string) returns (r: JwtResult)
      modifies provider
      ensures var run := JwtRun(provider.respond, old(provider.log), cpf, Password(cpf));
        r == run.result && provider.log == old(provider.log) + run.calls
    {
      ghost var log0, pw := provider.log, Password(cpf);
      var lookup := UserExists(cpf);
      if lookup.Threw? {
        return JwtFailed(lookup.error.message);
      }
      if lookup.value {
        var authResult := AuthenticateUser(cpf);
        assert provider.log == log0 + [AdminGetUser(cpf), AdminInitiateAuth(cpf, pw)];
        if authResult.AuthSucceeded? {
          return Caught(JwtOf(authResult.tokens, FirstAttemptTokenType));
        }
      }
      ghost var before := provider.log[|log0|..] + [SignUpCommand(cpf, pw)];
      assert log0 + before == provider.log + [SignUpCommand(cpf, pw)];
      var signUpResult := SignUpUser(cpf);
      if signUpResult.Threw? {
        return JwtFailed(signUpResult.error.message);
      }
      var signUp := signUpResult.value;
      // Never taken: signUpUser fails without throwing only for an existing user.
      if !signUp.success && signUp.message != AlreadyExistsMessage {
        return JwtFailed(signUp.message);
      }
      ghost var created := before + (if signUp.success then [AdminSetUserPassword(cpf, pw, true)] else []);
      assert provider.log == log0 + created;
      // The two-second propagation wait has no effect here.
      var finalAuth := AuthenticateUser(cpf);
      assert provider.log == log0 + (created + [AdminInitiateAuth(cpf, pw)]);
      if finalAuth.AuthSucceeded? {
        return Caught(JwtOf(finalAuth.tokens, TokenType));
      }
      return JwtFailed(FinalAuthFailedMessage);
    }
  }

  /** A provider that has no record of any user and answers `signUp` to sign-up requests. */
  function FreshPool(signUp: Reply, tokens: AuthTokens): seq<Command> -> Reply {
    (h: seq<Command>) =>
      if h == [] then Err(JsError("InvalidParameterException", "empty request history"))
      else match h[|h| - 1]
        case AdminGetUser(_) => Err(JsError(UserNotFound, "User does not exist."))
        case SignUp(_, _, _, _) => signUp
        case AdminSetUserPassword(_, _, _) => Ok(Response(None, None))
        case AdminInitiateAuth(_, _) => Ok(Response(None, Some(tokens)))
  }

  /**
   * A CPF never seen before: the lookup reports it absent, the sign-up and the
   * set-permanent request go through, and the final authentication yields an
   * IdToken with no ExpiresIn.
   */
  method NewUserScenario(cpf: string, idToken: string, randomPart: int -> string) returns (r: JwtResult, calls: seq<Command>)
    requires idToken != ""
    ensures r == Issued(Some(idToken), TokenType, DefaultExpiresIn)
    ensures var password := TemporaryPassword(cpf, randomPart);
      calls == [AdminGetUser(cpf), SignUpCommand(cpf, password),
                AdminSetUserPassword(cpf, password, true), AdminInitiateAuth(cpf, password)]
  {
    var tokens := AuthTokens(Some(idToken), None, None);
    var provider := new Provider(FreshPool(Ok(Response(Some("sub"), None)), tokens));
    var service := new CognitoService(provider, randomPart);
    r := service.GetCognitoJWT(cpf);
    calls := provider.log;
  }

  /**
   * Two requests race to create the same user and this one loses: its sign-up
   * is refused with UsernameExistsException, and it still obtains a token.
   */
  method LostCreationRaceScenario(cpf: string, accessToken: string, expiresIn: int, randomPart: int -> string)
    returns (r: JwtResult, calls: seq<Command>)
    requires expiresIn != 0
    ensures r == Issued(Some(accessToken), TokenType, expiresIn)
    ensures var password := TemporaryPassword(cpf, randomPart);
      calls == [AdminGetUser(cpf), SignUpCommand(cpf, password), AdminInitiateAuth(cpf, password)]
  {
    var tokens := AuthTokens(None, Some(accessToken), Some(expiresIn));
    var refused := Err(JsError(UsernameExists, "User already exists"));
    var provider := new Provider(FreshPool(refused, tokens));
    var service := new CognitoService(provider, randomPart);
    r := service.GetCognitoJWT(cpf);
    calls := provider.log;
  }
}
