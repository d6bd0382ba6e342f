# CPF validation and Cognito token provisioning, in Dafny

This project models the two components of the service that carry its decisions:

- **The CPF validator** (`CPFValidator` in `src/utils/cpfValidator.js`), module `Cpf`
  in `cpf_validator.dfy`. It strips every non-digit and requires eleven digits. It
  rejects one digit repeated eleven times and checks the two modulus-11 verifier
  digits. `calculateDigit` is a method with the source's loop, proved equal to a
  weighted-sum function. The other operations are functions.
- **The provisioning-and-authentication orchestrator** (`CognitoService` in
  `src/services/cognitoService.js`), module `Cognito` in `cognito_service.dfy`. The
  identity provider is a `Provider` object. It keeps a log of the requests it receives.
  Its reply to each request is a fixed function (`respond`) of the requests received
  so far, so the provider's state and its behaviour are parameters of the model.
  `CognitoService` keeps the source's methods: `UserExists`, `SignUpUser`,
  `SetUserPassword`, `AuthenticateUser` and `GetCognitoJWT`. Each appends its
  requests to the log and maps the replies to results the way the source does.
  `GetCognitoJWT` is proved equal to `JwtRun`, a function of the provider's script.
  The lemmas about `JwtRun` state the properties of the state machine.
- `wrappers.dfy` holds `Option`, which stands for JavaScript's `undefined`.

Exceptions are values. `Thrown<T>` is `Returned(value)` or `Threw(JsError(name, message))`.
Where the source catches an error, the model matches on it. `GetCognitoJWT` returns a
plain `JwtResult`, so the orchestrator never throws by its type.

Points the proofs make explicit:

- **First-attempt token type.** On the first-attempt path the token type is `"Bearer "`,
  with a trailing space. After a sign-up it is `"Bearer"`. The model keeps both
  (`FirstAttemptTokenType`, `TokenType`). `IssuedOnlyAfterAuthentication` proves that
  the type tells the two paths apart.
- **Dead branch.** In `getCognitoJWT`, the `!signUpResult.success && message !== 'Usuário já existe no Cognito'`
  branch can never be taken: `signUpUser` reports `success: false` only for an existing
  user. `SignUpOutcome`'s contract proves this. The branch is still modelled.
- **Missing tokens.** An authentication reply without `AuthenticationResult` (a
  challenge reply) makes `authResult.tokens.IdToken` throw a `TypeError`.
  `getCognitoJWT` catches it and returns a failure carrying the engine's message.
  The message text is the runtime's `TypeError` text, in the wording of V8 9.3 and
  later (Node.js 16.9 and later).
- **Predictable passwords.** The derived password depends only on the sum of the
  username's character codes. Usernames that are anagrams of each other get the same
  password (`PasswordOfPermutation`). Every CPF's seed lies in 528..627
  (`CpfSeedRange`), so all CPFs share at most one hundred passwords.
- **Test input.** `123.456.789-09` cleans to `12345678909` and is accepted
  (`FormattedExampleAccepted`).

## Model

| member | source | states |
|---|---|---|
| Cpf.Clean | src/utils/cpfValidator.js:2-4 | the cleaned string holds only the digits 0-9 and is no longer than the input |
| Cpf.IsValidLength | src/utils/cpfValidator.js:6-8 | holds exactly for strings of eleven characters; LengthRejection ties it to the length message |
| Cpf.IsRepeatedDigits | src/utils/cpfValidator.js:10-12 | holds exactly for eleven copies of one ASCII digit, the strings `/^(\d)\1{10}$/` matches; such a string has a valid length and only digits |
| Cpf.CleanConcat | src/utils/cpfValidator.js:2-4 | cleaning distributes over concatenation, so digits keep their original order |
| Cpf.CleanKeepsDigits | src/utils/cpfValidator.js:2-4 | a string of digits is left unchanged |
| Cpf.CleanDropsNonDigits | src/utils/cpfValidator.js:2-4 | a string without digits cleans to the empty string |
| Cpf.CleanIdempotent | src/utils/cpfValidator.js:2-4 | cleaning twice equals cleaning once |
| Cpf.CleanFormatted | src/utils/cpfValidator.js:2-4 | the layout ddd.ddd.ddd-dd cleans to its eleven digits |
| Cpf.WeightedSum | src/utils/cpfValidator.js:14-18 | the running total of calculateDigit is never negative |
| Cpf.CheckDigit | src/utils/cpfValidator.js:19-20 | the verifier is in 0..9; it is 0 exactly when the sum mod 11 is below 2, and otherwise it brings the sum to a multiple of 11 |
| Cpf.CalculateDigit | src/utils/cpfValidator.js:14-21 | the loop that post-decrements the factor only while it is above 1 returns CheckDigit, a value in 0..9 |
| Cpf.WeightedSumSpent | src/utils/cpfValidator.js:16-17 | once the factor is 1 or less, no further digit contributes |
| Cpf.WeightedSumPrefix | src/utils/cpfValidator.js:16-17 | with factor f only the first f-1 digits count; cutting the rest off changes nothing |
| Cpf.WeightedSumConstant | src/utils/cpfValidator.js:14-18 | for one repeated digit the sum is that digit times the total of the weights |
| Cpf.WeightedSumIsIndexSum | src/utils/cpfValidator.js:14-18 | while the factor stays above 1 the loop's total is the sum of digit i times (f - i) |
| Cpf.CheckDigitIsStandard | src/utils/cpfValidator.js:14-21 | calculateDigit agrees with the textbook rule 11 - (sum mod 11), with 10 and 11 read as 0 |
| Cpf.Validate | src/utils/cpfValidator.js:23-67 | cleanedCPF is absent only for a non-string input and is otherwise the cleaned input; the message is never empty; an accepted CPF has eleven digits that are not all the same |
| Cpf.LengthRejection | src/utils/cpfValidator.js:25-33 | the length message appears exactly when the cleaned string does not have eleven characters, with isValid false and the cleaned string reported |
| Cpf.RepeatedRejection | src/utils/cpfValidator.js:35-41 | among eleven-digit candidates, exactly the repeated-digit ones get the repeated-digits message and are rejected |
| Cpf.RepeatedDigitsPassChecksum | src/utils/cpfValidator.js:35-48 | eleven copies of any digit would pass both verifier checks, which is why they are rejected first |
| Cpf.ValidIffStandard | src/utils/cpfValidator.js:44-60 | isValid holds exactly for cleaned strings that are textbook CPFs (eleven digits, both verifiers right) and not one repeated digit |
| Cpf.PunctuationIgnored | src/utils/cpfValidator.js:25-60 | validating a string and validating its cleaned form give the same result |
| Cpf.NonStringRejected | src/utils/cpfValidator.js:61-66 | a non-string input gives isValid false, the generic error message and no cleanedCPF |
| Cpf.ExampleSums | src/utils/cpfValidator.js:14-18 | the weighted sums of 123456789 are 210 (weights 10..2) and, with verifier 0, 255 (weights 11..2) |
| Cpf.ExampleVerifiers | src/utils/cpfValidator.js:19-20 | the verifiers of 123456789 are 0 and 9 |
| Cpf.ExampleCleaned | src/utils/cpfValidator.js:2-4 | 123.456.789-09 and 123.456.789-00 clean to their eleven digits |
| Cpf.ExampleIsStandard | src/utils/cpfValidator.js:44-48 | 12345678909 is a textbook CPF and not one repeated digit |
| Cpf.FormattedExampleAccepted | test/test.js:6 | the test's input 123.456.789-09 is accepted with cleanedCPF 12345678909 |
| Cpf.ChecksumRejection | src/utils/cpfValidator.js:44-54 | an eleven-digit candidate that is not one repeated digit and fails the textbook verifier rule is rejected with the verifier-digits message and its cleaned string |
| Cpf.WrongVerifiersRejected | src/utils/cpfValidator.js:48-54 | 123.456.789-00 is rejected with the verifier-digits message and cleanedCPF 12345678900 |
| Cognito.Provider.Send | src/services/cognitoService.js:16 | a request is appended to the provider's log and answered with the scripted reply to that history |
| Cognito.Seed | src/services/cognitoService.js:224 | the sum of character codes, folded from the left, is never negative |
| Cognito.SeedConcat | src/services/cognitoService.js:224 | the seed of a concatenation is the sum of the seeds |
| Cognito.SeedSnoc | src/services/cognitoService.js:224 | appending a character adds its code to the seed |
| Cognito.SeedWithout | src/services/cognitoService.js:224 | removing one character removes its code from the seed |
| Cognito.SeedOfPermutation | src/services/cognitoService.js:224 | the seed depends only on the multiset of characters |
| Cognito.TemporaryPassword | src/services/cognitoService.js:223-227 | the password is "TempPass", then the fragment derived from the seed, then "!" |
| Cognito.PasswordOfPermutation | src/services/cognitoService.js:223-227 | usernames with the same characters in any order get the same password |
| Cognito.DigitSeedRange | src/services/cognitoService.js:224 | a digit string of length n has a seed between 48n and 57n |
| Cognito.CpfSeedRange | src/services/cognitoService.js:224 | every eleven-digit CPF has a seed in 528..627, so at most one hundred distinct passwords |
| Cognito.ExistenceOf | src/services/cognitoService.js:10-24 | a successful lookup is true, only UserNotFoundException is false, and every other error is rethrown unchanged |
| Cognito.SignUpOutcome | src/services/cognitoService.js:52-66 | success exactly when the provider accepted the sign-up, with its UserSub; UsernameExistsException is a non-throwing failure with the already-exists message; any other error is rethrown |
| Cognito.AuthOutcome | src/services/cognitoService.js:98-110 | never throws; succeeds exactly when the provider answered, carrying AuthenticationResult; otherwise fails with 'Erro na autenticação' and the error's message |
| Cognito.JwtOf | src/services/cognitoService.js:170-176 | undefined tokens throw a TypeError; otherwise the token is IdToken when truthy and else AccessToken, expiresIn is ExpiresIn when truthy and else 3600 (never 0), with the given token type |
| Cognito.Caught | src/services/cognitoService.js:214-220 | a thrown error becomes a failure carrying its message; a returned result passes through unchanged, so a token is issued only when one was returned |
| Cognito.JwtRun | src/services/cognitoService.js:159-221 | the result and the ordered requests of one getCognitoJWT call against a scripted provider: one to five requests, the lookup first, and an issued token only after an authentication request sent last |
| Cognito.JwtTraceBounds | src/services/cognitoService.js:159-221 | every possible request sequence starts with the lookup and holds no other lookup, at most one sign-up, at most one set-permanent request and at most two authentications, all for the one username and one password |
| Cognito.JwtRunTrace | src/services/cognitoService.js:159-221 | every run of getCognitoJWT sends one of those request sequences |
| Cognito.LookupErrorIsFatal | src/services/cognitoService.js:214-220 | a lookup error other than UserNotFoundException ends the run after the lookup, with that error's message |
| Cognito.FirstAuthenticationSkipsSignUp | src/services/cognitoService.js:165-177 | when the user exists and the first authentication succeeds, no sign-up is sent and the result is built with token type "Bearer " |
| Cognito.AbsentUserIsSignedUpFirst | src/services/cognitoService.js:162-181 | when the user is absent, the request after the lookup is the sign-up, with no authentication before it |
| Cognito.SignUpOutcomes | src/services/cognitoService.js:181-195 | after the sign-up: success is followed by set-permanent and the final authentication; "already exists" goes straight to the final authentication; any other error ends the run with its message |
| Cognito.FinalAuthenticationDecides | src/services/cognitoService.js:195-212 | the final authentication gives the token with type "Bearer", or else the message 'Falha ao obter JWT após criação do usuário.' |
| Cognito.IssuedOnlyAfterAuthentication | src/services/cognitoService.js:165-212 | a token is issued only by a successful last authentication that carried tokens, and the type is "Bearer " exactly when it was the first attempt |
| Cognito.CognitoService.constructor | src/services/cognitoService.js:4-8 | the service keeps the injected provider and the password fragment function |
| Cognito.CognitoService.UserExists | src/services/cognitoService.js:10-24 | sends one lookup and returns ExistenceOf its reply |
| Cognito.CognitoService.SetUserPassword | src/services/cognitoService.js:69-81 | sends one permanent set-password request; no failure propagates |
| Cognito.CognitoService.SignUpUser | src/services/cognitoService.js:26-67 | sends the sign-up with the derived password, the email cpf@temp.com and the custom:cpf attribute; if the sign-up succeeds, it also sends the set-permanent request with the same password; returns SignUpOutcome |
| Cognito.CognitoService.AuthenticateUser | src/services/cognitoService.js:83-111 | sends one authentication with the derived password and returns AuthOutcome of the reply |
| Cognito.CognitoService.GetCognitoJWT | src/services/cognitoService.js:159-221 | returns JwtRun's result and appends exactly JwtRun's requests to the log, with the password derived from the CPF |
| Cognito.NewUserScenario | src/services/cognitoService.js:159-205 | for a CPF never seen before, the run sends lookup, sign-up, set-permanent and authentication, and returns the IdToken with type "Bearer" and expiry 3600 |
| Cognito.LostCreationRaceScenario | src/services/cognitoService.js:184-205 | when another request already created the user, the sign-up refusal is tolerated and the AccessToken is returned with the reported expiry |

## Left out

- The floating-point part of the password, `Math.abs(Math.sin(seed) * 10000).toString(36).slice(-6)`, is the parameter `randomPart: int -> string`. It is fixed per service, so the password is still a function of the username alone.
- Cognito.Seed: sums Unicode scalar values, whereas `charCodeAt` sums UTF-16 code units. The two differ only for characters outside the Basic Multilingual Plane. CPFs are ASCII digits.
- The AWS SDK client: region and environment configuration, and the fields `UserPoolId`, `ClientId`, `AuthFlow` and `AuthParameters` keys. A request is modelled by the fields that vary with the input.
- The two-second `setTimeout` wait before the final authentication. In a sequential model it changes nothing.
- `async`/`await` scheduling, and races between concurrent requests. A lost creation race is represented only by the reply the provider gives (`LostCreationRaceScenario`).
- All `console.log` and `console.error` tracing.
- The commented-out earlier `getCognitoJWT` (`src/services/cognitoService.js:113-157`), which is dead code.
- `src/handlers/cpfHandler.js` is not part of this model. It covers request parsing, status codes and CORS headers.
- Cpf.Validate: treats every non-string argument as one whose `replace` throws. A non-string object that has its own `replace` method is not modelled.
- Cognito.JwtOf: `ExpiresIn` is an integer, so the falsy `NaN` case of `ExpiresIn || 3600` is not modelled. Tokens are strings or undefined, not other JavaScript values.
