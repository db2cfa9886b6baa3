# GU / RO / BI divisibility classifier

A Dafny model of the `GET /:command` route of a small Express API
(`api-app.js`). The route takes a path token, checks that it is a positive
decimal integer written without a sign or leading zero (`^[1-9]\d*$`), and
labels the number by which of 2, 3 and 5 divide it: "GU" for 2, "RO" for 3,
"BI" for 5, the combination in that order when several apply, and "INVALID"
when none does. The label goes out with status 400 (token rejected), 200
(token accepted) or 500 (an exception inside the handler).

Files, one module each:

- `digits.dfy` (`Digits`): the validator `ValidToken`, the value of a digit
  string `Parse`, the canonical rendering `Show`, and the proof that the
  accepted tokens are exactly the renderings of the integers >= 1.
- `divisibility.dfy` (`Divisibility`): `isMultiply` as the method
  `IsMultiply`, with its flag and early `break`, proved equal to the
  predicate `AllDivide` ("every denominator divides the target").
- `classifier.dfy` (`Classifier`): the ordered if/else-if chain as the
  function `Classify`, and `ComposedLabel`, the rule worded in the problem
  statement at the top of the source file, proved equal to it.
- `command_route.dfy` (`CommandRoute`): the handler as the function
  `Respond` and as the method `HandleCommand`, which follows the source
  step by step (default "INVALID", validation, the seven `IsMultiply` calls
  in order, the send) and is proved to return `Respond`'s result. Because
  that result is a function of the token and the fault alone, equal tokens
  always get equal responses: the handler reads and writes no state.

Where the handler raises an exception is a parameter, `Fault`: no fault, a
fault before anything is sent, or a fault in the call that sends the 400 or
200 response. The `catch` block sends the current value of the local
`response` with status 500. So a fault while sending the 200 gives status
500 with the label already chosen, not "INVALID". The code is followed here;
a description that always pairs 500 with "INVALID" holds only for faults
before the label is chosen (`FaultIs500`).

A zero denominator is modelled as JavaScript evaluates it: `n % 0` is NaN,
and `NaN !== 0`, so zero divides nothing (`Divides`). The route only ever
passes 2, 3 and 5.

## Model

| member | source | states |
|---|---|---|
| Digits.Show | api-app.js:53 | the canonical rendering of n is digits only, and it matches `^[1-9]\d*$` exactly when n is not 0 |
| Digits.ParsePositive | api-app.js:51-53 | every accepted token is all digits and denotes an integer >= 1 |
| Digits.ParseShow | api-app.js:51-53 | reading back the canonical rendering of n gives n |
| Digits.ShowParse | api-app.js:51-53 | an accepted token is the canonical rendering of the number it denotes |
| Digits.AcceptedIffCanonical | api-app.js:51-53 | a token is accepted if and only if it is the canonical rendering of some integer >= 1 (so no sign, no leading zero, no "0", no other character) |
| Digits.CanonicalAccepted | api-app.js:51-53 | every integer >= 1, rendered canonically, is accepted and read back as itself |
| Digits.RejectedTokens | api-app.js:53 | "", "0", "007", "-5", "+5", "1.0" and "abc" are rejected; "7", "30" and "100" are accepted |
| Divisibility.IsMultiply | api-app.js:107-119 | the loop with its flag and early break returns true if and only if every denominator in the list divides the target; so an empty list gives true |
| Divisibility.AllDivideConcat | api-app.js:107-119 | every element of a concatenated list divides n if and only if every element of both parts does |
| Classifier.Classify | api-app.js:45-92 | the chain's result is always one of the eight labels |
| Classifier.ChainTests | api-app.js:72-92 | each of the seven tests of the chain holds exactly when each divisor in its list divides n |
| Classifier.ClassifyIsComposed | api-app.js:3-92 | the first-match chain gives, for every n, the parts GU, RO, BI of the divisors 2, 3, 5 that divide n, concatenated in that order, or "INVALID" when none divides |
| Classifier.ClassifyExactly | api-app.js:72-92 | each label corresponds to exactly one divisibility pattern of 2, 3, 5; a multiple of 2, 3 and 5 gets "GUROBI" and never a partial label |
| Classifier.ClassifyPeriodic | api-app.js:72-92 | the label of n equals the label of n mod 30 |
| Classifier.Examples | api-app.js:3-8 | 30, 6, 20, 15, 2, 3, 5, 7 get GUROBI, GURO, GUBI, ROBI, GU, RO, BI, INVALID |
| CommandRoute.HandleCommand | api-app.js:41-103 | the handler, run step by step with its seven `isMultiply` calls, returns exactly the response `Respond` gives for the token and the fault |
| CommandRoute.StatusFollowsValidation | api-app.js:45-95 | without a fault, the status is 400 if and only if the token is rejected, and then the body is "INVALID"; it is 200 if and only if the token is accepted, and then the body is the composed label of the number, "INVALID" included |
| CommandRoute.FaultIs500 | api-app.js:97-102 | the status is 500 if and only if a fault happens; a fault before the send gives "INVALID", a fault in the send gives the body the send would have carried |
| CommandRoute.ResponseIsClosed | api-app.js:41-103 | every status is 400, 200 or 500 and every body is one of the eight labels |
| CommandRoute.CanonicalRequest | api-app.js:51-95 | every integer >= 1 sent in canonical form is answered 200 with its composed label |
| CommandRoute.AcceptedExamples | api-app.js:41-95 | "30", "6", "20", "15", "7" get 200 with GUROBI, GURO, GUBI, ROBI, INVALID |
| CommandRoute.RejectedExamples | api-app.js:45-59 | "0", "-5", "007", "abc" get 400 with INVALID |

## Left out

- Parse: the source passes the token string to `%`, which converts it to an IEEE 754 double. Integers above 2^53 that a double cannot hold are then rounded (9007199254740993 becomes 9007199254740992, an even number), and tokens too long for a double become Infinity, whose remainder is NaN, so the label is "INVALID" with status 200. The model reads the token as an exact natural number.
- The cause of the 500 branch: no statement in the `try` block is expected to throw in normal operation, so the fault is an input (`Fault`) rather than a model of exceptions.
- The Express bootstrap (`express()`, `listen` on port 3000, route registration, the `/` route answering "Welcome!"): framework I/O. The model returns the status and body the handler would send.
- The logging calls: output to a logging service that is not part of this model.
- mongo-app.js (`getClient`, `getCollection`, `read`, `upsert`): thin wrappers over the MongoDB driver, whose behaviour is not part of this model.
- URL decoding of the path parameter by Express: the model starts from the decoded token.
