# deep-thoughts core, modelled in Dafny

deep-thoughts is a small social-posting web application: users sign up, post
short "thoughts", react to them and keep a list of friends. Its server is an
Express/Apollo GraphQL API over MongoDB (Mongoose). Its client is a React
single-page app. This project models the three pieces of that code that carry
logic of their own, and proves properties about them:

- **Session tokens** (`server/utils/auth.js`, module `Auth`).
  - `signToken` builds the payload `{data: {username, email, _id}}` and signs it
    with the fixed secret and a `'2h'` lifetime.
  - `authMiddleware` picks a token from the request body, the query string or the
    Authorization header, in that order, by JavaScript truthiness.
  - When a truthy Authorization header is present, it cuts the chosen token down
    to the text after its last space and trims it. This happens even when the
    token came from the body or the query.
  - It verifies the token. On success it sets `req.user` to the decoded `data`.
    A failed verification is swallowed.
  - `jwt.sign` and `jwt.verify` are function parameters (`Signer`, `Verifier`).
    `verify` returns `None` where the library would throw.
  - The middleware is a module-level method that takes a `Request` object and
    may change only its `user` field. It is proved against the function
    `ContextUser`.
- **The User document** (`server/models/User.js`, module `UserModel`).
  - The validators: `required` on all three fields, the `trim` setter on
    `username`, the unanchored email pattern `/.+@.+\..+/`, and `minlength: 5`
    on the password.
  - The pre-save hook rehashes the password only when the document is new or its
    password was modified.
  - The `friendCount` virtual.
  - The pattern is given two definitions: its regular-expression meaning
    (`MatchesEmailPattern`) and a test on positions (`IsEmailAddress`). A lemma
    proves they agree.
  - Saving is a function on document states (`SaveDocument`). The class
    `UserDocument` is proved against it. `bcrypt.hash` is a function parameter
    (`Hasher`).
- **The thought form** (`client/src/components/ThoughtForm/index.js`, module
  `ThoughtForm`).
  - A two-field state, `thoughtText` and `characterCount`.
  - `handleChange` accepts a value only when its length is at most 280.
  - `handleFormSubmit` clears the form only when the mutation succeeds.
  - The `update` callback puts the new thought at the front of the cached feed
    and at the end of the cached `me.thoughts`.
  - The feed write is wrapped in a try/catch. The `me` write is not, so it runs
    even when the feed read fails.

Two helper modules support these. `Wrappers` defines `Option`, standing for a
value that may be `undefined`. `JsString` defines the JavaScript string behaviour
the code relies on:

- `trim` strips ECMAScript white space and line terminators.
- `split(' ')` is modelled with `join` as its proved inverse, and `.pop()` as
  the last piece.
- `.length` counts UTF-16 code units (`Utf16Length`). A character above U+FFFF
  counts twice, both in the 280 limit and in the password `minlength`.

Points where the code's behaviour is easy to misread:

- The email pattern needs at least one character before the `@`, one between
  the `@` and the `.`, and one after the `.`. None of these characters may be a
  line terminator, and the pattern is not anchored.
- The Bearer normalisation applies to whichever token won, whenever the
  Authorization header is truthy, not only to a token taken from the header.
- The hook rehashes when the document is new or Mongoose reports `password`
  modified. `AssignPassword` models Mongoose's change tracking: assigning the
  stored value again on an existing document does not mark it modified.
- `server/schemas/resolvers.js` has only read queries and
  `server/schemas/typeDefs.js` declares no Mutation type, so there is no
  mutation and no per-mutation authentication check to model.

## Model

| member | source | states |
|---|---|---|
| `JsString.Trim` | server/utils/auth.js:43 | `trim`: the result is a contiguous piece of the input. Everything cut from either end is white space, and neither end of the result is white space. |
| `JsString.TrimLeadingTabExample` | server/utils/auth.js:43 | `"\tabc".trim()` is `"abc"`. |
| `JsString.TrimIdempotent` | server/models/User.js:11 | Trimming an already trimmed username changes nothing. |
| `JsString.TrimOfWhiteSpace` | server/models/User.js:9-11 | A username of white space only trims to the empty string. |
| `JsString.TrimKeepsAbsent` | server/utils/auth.js:40-43 | Trimming never introduces a character, so a space-free piece stays space-free. |
| `JsString.Split` | server/utils/auth.js:41 | `split(' ')` yields at least one piece, no piece contains the separator, and joining the pieces gives the input back. |
| `JsString.SplitJoin` | server/utils/auth.js:41 | Splitting the join of separator-free pieces gives the pieces back, the other direction of the round trip. |
| `JsString.LastSpaceSegment` | server/utils/auth.js:41-42 | The piece `split(' ').pop()` returns has no space. `LastSpaceSegmentIsTextAfterLastSpace` says which piece it is. |
| `JsString.LastSpaceSegmentIsTextAfterLastSpace` | server/utils/auth.js:40-42 | `split(' ').pop()` is the suffix after the last space, or the whole string when there is no space. It has no space. |
| `JsString.IndexOf` | server/utils/auth.js:41 | The position found is the first occurrence of the separator. |
| `JsString.Utf16Length` | client/src/components/ThoughtForm/index.js:45-47 | `.length` lies between the number of characters and twice that number. |
| `JsString.Utf16LengthAppend` | client/src/components/ThoughtForm/index.js:45-47 | `.length` adds up over concatenation. |
| `JsString.Utf16LengthOfBmp` | server/models/User.js:23 | `.length` equals the number of characters for text inside the Basic Multilingual Plane. |
| `Auth.SignTokenDependsOnClaimsOnly` | server/utils/auth.js:21-25 | Users equal on username, email and id get the same payload, so every other field of the user is dropped. Signed at the same instant, which is one `Signer`, they get the same token. |
| `Auth.SignPayload` | server/utils/auth.js:21-23 | The payload carries a `data` member holding exactly the user's username, email and id. |
| `Auth.SignToken` | server/utils/auth.js:21-26 | The token is what `jwt.sign` returns for `{data: {username, email, _id}}`, the secret `mysecretsshhhhh` and `{expiresIn: '2h'}`. |
| `Auth.SelectToken` | server/utils/auth.js:34 | The token is the first truthy one of body, query and header. Empty and undefined fall through, and with no truthy source the header value is kept. |
| `Auth.BearerValue` | server/utils/auth.js:40-43 | The normalised token has no space and no white space at either end. A space-free token is only trimmed. |
| `Auth.BearerValueAfterSpace` | server/utils/auth.js:40-43 | Whatever comes before the last space, the space-free text after it is extracted and then trimmed. For example, `... \tabc` gives `abc`. |
| `Auth.ResolvedToken` | server/utils/auth.js:34-44 | Without a truthy header, the chosen token is used verbatim. With one, the chosen token, from whichever source, is normalised: it has no space and is trimmed. |
| `Auth.BearerHeaderYields` | server/utils/auth.js:34-44 | A header `"Bearer " + t` alone, with `t` space-free, yields `t` trimmed. |
| `Auth.BearerHeaderYieldsTrimmed` | server/utils/auth.js:34-44 | A header `"Bearer " + t` alone yields `t` itself when `t` is space-free and has no white space at its ends. |
| `Auth.BearerHeaderExample` | server/utils/auth.js:38-44 | `"Bearer abc"` yields `"abc"`. |
| `Auth.BearerHeaderTabExample` | server/utils/auth.js:38-44 | `"Bearer \tabc"` yields `"abc"`: the tab left after the split is trimmed away. |
| `Auth.BodyTokenNormalisedWhenHeaderPresent` | server/utils/auth.js:34-44 | With a truthy header present, a body token `x + " " + y` (`y` space-free) is cut to `y` trimmed, whatever the header says. |
| `Auth.BodyTokenVerbatimWithoutHeader` | server/utils/auth.js:34-38 | With no header, or an empty one, a body token is used unsplit and untrimmed. |
| `Auth.TrailingSpaceHeaderYieldsNoToken` | server/utils/auth.js:38-49 | A header `"Bearer "` yields the empty token, and the request's user is left as it was. |
| `Auth.ContextUser` | server/utils/auth.js:47-61 | `req.user` changes only through a successful verification: a new user is exactly the `data` of a payload that `jwt.verify` returned for the truthy resolved token. |
| `Auth.NoTokenKeepsUser` | server/utils/auth.js:47-49 | With no truthy token the request is returned without touching `user`, whatever the verifier would say. |
| `Auth.FailedVerifyKeepsUser` | server/utils/auth.js:51-61 | When verification fails, the error is swallowed and `user` is unchanged. |
| `Auth.VerifiedTokenSetsData` | server/utils/auth.js:55-57 | On successful verification, `user` becomes exactly the decoded `data` member. |
| `Auth.SignedTokenAuthenticates` | server/utils/auth.js:21-57 | Send a token from `signToken` as `Authorization: Bearer <token>`. If the library verifies what it signed, the request's user is exactly that user's username, email and id. |
| `Auth.AuthMiddleware` | server/utils/auth.js:31-65 | Returns the same request object. Only `user` may change, and it becomes `ContextUser` of the request's token sources and its previous user. |
| `Auth.Request.constructor` | server/server.js:20-24 | A request arrives with its three token sources and no `user`. |
| `Auth.RequestContext` | server/server.js:20-24 | Apollo runs the middleware on each incoming request. The user the resolvers see is `ContextUser` with no prior user, and it stays absent when no truthy token resolves. |
| `UserModel.IsEmailAddressMatchesPattern` | server/models/User.js:18 | The position test accepts a string exactly when the unanchored `/.+@.+\..+/` matches some piece X@Y.Z of it, with X, Y and Z non-empty and free of line terminators. |
| `UserModel.IsEmailAddress` | server/models/User.js:18 | An accepted address has at least 5 characters and contains an `@` and a `.`. |
| `UserModel.MatchesEmailPattern` | server/models/User.js:18 | Any string the pattern matches has at least 5 characters and contains an `@` and a `.`. |
| `UserModel.EmailPatternExamples` | server/models/User.js:18 | `a@b.c` and `say a@b.c here` are accepted. `a@b`, `@b.c` and `a@.c` are refused. |
| `UserModel.ValidationErrors` | server/models/User.js:7-24 | A path fails exactly when its value is missing or empty (`required`), or the email does not match the pattern, or the password is shorter than 5 `.length` units. Each failing path reports one validator, and a missing value reports `required`. |
| `UserModel.IsValidIff` | server/models/User.js:7-24 | A document passes validation exactly when all three fields are present and non-empty, the email matches the pattern, and the password has at least 5 `.length` units. |
| `UserModel.PasswordLengthExamples` | server/models/User.js:20-24 | A four-character password is refused and a five-character one accepted. |
| `UserModel.SetUsername` | server/models/User.js:11 | The stored username is the trim of the given one, with no white space at either end. |
| `UserModel.NewDocument` | server/models/User.js:5-43 | A new document is marked new and its username is the input's username put through the trim setter. It keeps email and password as given, its password counts as modified exactly when one was given, and it has no thoughts or friends. |
| `UserModel.BlankUsernameIsRequired` | server/models/User.js:9-11 | A username of only white space trims to `""`, which `required` refuses. |
| `UserModel.AssignPassword` | server/models/User.js:50 | After `doc.password = p` the password is `p`. The path counts as modified exactly when it already was, or the document is new, or `p` differs from the stored value. No other field changes. |
| `UserModel.HookedPassword` | server/models/User.js:50-53 | The hook gives `hash(password, 10)` for a new document or a modified password, and leaves the password as it is otherwise. |
| `UserModel.SaveDocument` | server/models/User.js:47-56 | `save()` succeeds exactly when validation passes. A refused save leaves the document unchanged and reports every failing path. A successful one leaves it not new and not modified. |
| `UserModel.SaveHashesIffNewOrModified` | server/models/User.js:47-56 | Saving a valid document stores `hash(password, 10)` when it is new or its password was modified, and keeps the password otherwise. No other field changes, `next()` is always reached so the save completes, and the document is then not new and not modified. |
| `UserModel.SaveRefusesInvalid` | server/models/User.js:7-24 | An invalid document is not saved, is left unchanged, and every failing path is reported. |
| `UserModel.SaveUnmodifiedKeepsPassword` | server/models/User.js:50-53 | Saving an existing document with an unmodified password leaves the password as it is. |
| `UserModel.RepeatedSavesDoNotRehash` | server/models/User.js:50-53 | Any number of saves in a row gives the state of the first save, so the password is hashed at most once. |
| `UserModel.AssignThenSave` | server/models/User.js:50-53 | Assigning the stored password again and saving keeps it. Assigning a different one and saving stores its hash. |
| `UserModel.ToJson` | server/models/User.js:63-65 | The JSON view carries every stored field as stored, and `friendCount` equals the length of `friends`. |
| `UserModel.SaveKeepsFriendCount` | server/models/User.js:63-65 | `friendCount` is derived, so saving never changes it. |
| `UserModel.UserDocument.constructor` | server/models/User.js:5-43 | `new User(input)` has the state `NewDocument(input)`. |
| `UserModel.UserDocument.SetPassword` | server/models/User.js:50 | Assigning a password gives the state `AssignPassword` describes, including whether the path counts as modified. |
| `UserModel.UserDocument.PreSave` | server/models/User.js:47-56 | The hook replaces the password by its hash exactly when the document is new or the password was modified. Nothing else changes. |
| `UserModel.UserDocument.Save` | server/models/User.js:47-56 | `save()` leaves the document and its result as `SaveDocument` describes. |
| `UserModel.UserDocument.FriendCount` | server/models/User.js:63-65 | The getter returns the `friendCount` of the document's JSON view, the length of `friends`. |
| `ThoughtForm.InitialIsConsistent` | client/src/components/ThoughtForm/index.js:9-10 | The form starts with text `''` and count 0, which is consistent. |
| `ThoughtForm.Change` | client/src/components/ThoughtForm/index.js:44-49 | A value of at most 280 `.length` units becomes the text, with a consistent count. A longer value leaves both fields unchanged. |
| `ThoughtForm.Submit` | client/src/components/ThoughtForm/index.js:57-69 | A successful submit resets the text to `''` and the count to 0. A failed one leaves both unchanged. |
| `ThoughtForm.Step` | client/src/components/ThoughtForm/index.js:44-69 | One change or settled submit keeps the form consistent, and a failed submit changes nothing. |
| `ThoughtForm.Run` | client/src/components/ThoughtForm/index.js:53-69 | Any run of failed submits leaves the form exactly as it was. |
| `ThoughtForm.RunKeepsConsistent` | client/src/components/ThoughtForm/index.js:44-69 | After any sequence of changes and submits, `characterCount == .length(thoughtText) <= 280` still holds. |
| `ThoughtForm.TextIsEmptyOrTyped` | client/src/components/ThoughtForm/index.js:44-69 | From the initial state, the text is always `''` or a value the user typed that was within the limit. |
| `ThoughtForm.CounterClassName` | client/src/components/ThoughtForm/index.js:74 | The class is `"m-0 text-error"` exactly when the count is 280, and `"m-0 "` otherwise. |
| `ThoughtForm.LimitStylingIffFull` | client/src/components/ThoughtForm/index.js:74 | In a consistent form, the error styling shows exactly when the text has 280 `.length` units. |
| `ThoughtForm.PrependThought` | client/src/components/ThoughtForm/index.js:26-29 | The new feed has the new thought at index 0 and the old entries after it in their order. |
| `ThoughtForm.AppendThought` | client/src/components/ThoughtForm/index.js:36-39 | `me.thoughts` becomes the old list with the new thought at the end. Every other field of `me` is unchanged. |
| `ThoughtForm.FeedIsNewestFirst` | client/src/components/ThoughtForm/index.js:23-29 | Thoughts added one after another appear newest first in the feed, ahead of the old feed. |
| `ThoughtForm.ProfileIsOldestFirst` | client/src/components/ThoughtForm/index.js:35-39 | Thoughts added one after another appear oldest first at the end of `me.thoughts`, with the rest of `me` untouched. |
| `ThoughtForm.UpdateStepsIndependent` | client/src/components/ThoughtForm/index.js:18-40 | If the feed is not cached, its write is skipped but `me` is still updated. If `me` is not cached, the callback throws after the feed write, which stays. |
| `ThoughtForm.UpdateCache` | client/src/components/ThoughtForm/index.js:18-40 | The callback completes exactly when `me` is cached. Each cached query stays cached and none appears. |
| `ThoughtForm.Cache.Update` | client/src/components/ThoughtForm/index.js:18-40 | The cache and the completion flag become what `UpdateCache` describes. |
| `ThoughtForm.Cache.constructor` | client/src/components/ThoughtForm/index.js:18-40 | The cache starts holding exactly the given feed and `me` queries. |
| `ThoughtForm.RunUpdate` | client/src/components/ThoughtForm/index.js:18-40 | Running the callback on a cache that holds the given queries yields `UpdateCache` of that cache, and it completes exactly when `me` is cached. |
| `ThoughtForm.Form.constructor` | client/src/components/ThoughtForm/index.js:9-10 | The first render has text `''` and count 0, and the invariant holds. |
| `ThoughtForm.Form.HandleChange` | client/src/components/ThoughtForm/index.js:44-49 | The new state is `Change` of the old one, and the invariant is kept. |
| `ThoughtForm.Form.HandleFormSubmit` | client/src/components/ThoughtForm/index.js:53-70 | The current text is sent as the mutation's variable. The new state is `Submit` of the old one with the mutation's outcome for that text, and the invariant is kept. |

## Left out

- JSON Web Token internals are not modelled: signature checking, encoding, and the `expiresIn`/`maxAge` clock handling of `jwt.sign`/`jwt.verify`. They are a foreign library with a wall clock, so `Signer` and `Verifier` are parameters.
- `bcrypt.hash` is a total function parameter. A rejected hash, which would fail the save, is not modelled.
- `Signer` stands for signing at one fixed instant, and `Hasher` for hashing with one fixed salt. The `iat` time that `jwt.sign` stamps into every token, and the fresh random salt of each `bcrypt.hash` call, are not modelled. So `hash(p, 10)` in the save lemmas is one of the many hashes bcrypt could produce, and the same token for equal claims holds only for signing at the same instant.
- `isCorrectPassword` (server/models/User.js:59-61) is not modelled. It only calls `bcrypt.compare`, which is foreign crypto.
- Uniqueness of username and email (server/models/User.js:10,16) is not modelled. It is a database index, not per-document logic.
- Storing the document in MongoDB is not modelled. So are `ObjectId` references, `populate`, and the queries of server/schemas/resolvers.js. A saved document is represented by its state after the hook.
- Token values that are not strings (numbers, objects) are not modelled. Neither is a missing `req.body` or `req.query`, on which the JavaScript would throw. Tokens are strings or `undefined`.
- Mongoose casting of non-string values is not modelled. Neither are its error messages (such as 'Must match an email address!'), nor its general change tracking beyond the `password` path.
- The `id` and `__v` fields of the JSON view are not modelled.
- `console.log` and `console.error` are not modelled. They are logging effects.
- JSX rendering is not modelled, including the "Something went wrong..." span. `event.preventDefault` and React's batching of state setters are not modelled either. The form's state is the value after a handler has run.
- Apollo is not modelled. The mutation's success is a parameter of `HandleFormSubmit`, and the model does not say whether an exception thrown by `update` rejects the mutation. A cached query that is missing (`None`) stands for a `readQuery` that throws.
- The repository's client/src/utils/queries.js and client/src/utils/mutations.js define neither `QUERY_ME` nor `ADD_THOUGHT`. The cached `me` and thought shapes follow the GraphQL types in server/schemas/typeDefs.js.
- Strings containing lone UTF-16 surrogates are not modelled. Dafny characters are Unicode scalar values, so every string here is well formed.
- Server/server.js, the GraphQL schema text, and the React pages and other components are not modelled. They are bootstrap, declarative text or UI.
- Mutations and a per-mutation authentication check: `server/schemas/resolvers.js` has only read queries and `server/schemas/typeDefs.js` declares no Mutation type, so there is nothing of the kind to model.
