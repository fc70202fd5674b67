# ChatApp authentication and chat-store core, in Dafny

This project models the self-contained decision and state logic of a
real-time direct-messaging application, and proves properties of it:

- **The client chat store** (`Frontend/src/store/useChatStore.ts`). It holds the
  contact list, the open conversation, the selected user and two loading flags,
  and it installs `newMessage` listeners on the live socket. It is modelled as a
  `Store` class whose methods take the server's answer (`Fetched(data)` or
  `Failed(message)`) as a parameter. The socket is a `Socket` class holding its
  listeners in registration order. Each store listener remembers the id of the
  user who was selected when it was installed. `EmitNewMessage` is the socket
  calling those listeners for one incoming message. It is proved against the pure
  specification `Deliver`, and the lemmas about `Deliver` give:
  - the sender filter;
  - prefix preservation;
  - one append per installed listener, so two subscriptions mean two copies;
  - nothing after `unsubscribeFromMessages`.
- **The authentication handlers** (`Backend/src/controllers/auth.controller.ts`).
  The early-return guard chains of `signup` and `login` are pure functions
  (`FormProblem`, `SignupCheck`, `LoginCheck`) over the collection's documents.
  The handlers themselves are methods that perform the effects, proved against
  those functions. The effects are the `jwt` cookie, the inserted document, the
  profile-picture upload and update, and the reply. Every `catch` block answers
  with `Http.ErrorMessage` of what was thrown: the message of an `Error`, or the
  fixed "Internal Server Error" for any other value.
- **The route guard** (`Backend/src/middleware/auth.middleware.ts`). The
  three-step chain is the pure function `Authorize`. `ProtectRoute` attaches the
  user to the request and reports whether `next()` is called.
- **The API envelope** (`Backend/src/utils/api-response.ts`). `SendSuccess` and
  `SendError` are pure payload builders, with their default arguments and the
  conditional `details` key.

The external collaborators are modelled as follows:

- The user collection is a `UserCollection` class. It holds the documents in
  order, an `outage` error that every query rejects with while the database is
  unreachable, and a ghost log of the queries it received.
- The image host is an `ImageHost` class.
- bcrypt hashing and comparison, `jwt.sign` and `jwt.verify` are function-typed
  parameters.
- The salt, the new document id, the configured secret and the schema's default
  picture are parameters.

JavaScript truthiness, `typeof` and the UTF-16 length of strings are written out
in `JsValues`. This is why the password check counts a character outside the
Basic Multilingual Plane as two.

## Model

| member | source | states |
|---|---|---|
| `JsValues.TypeOf` | Backend/src/utils/api-response.ts:31 | `typeof` yields "object" exactly for `null` and objects, and "string" exactly for strings |
| `JsValues.Truthy` | Backend/src/controllers/auth.controller.ts:27 | among values `typeof` calls "object" only `null` is falsy; functions are always truthy, `undefined` never, and a string exactly when it is non-empty |
| `JsValues.Present` | Backend/src/middleware/auth.middleware.ts:21 | `!x` rejects a string field exactly when it is missing or empty, so a present field has length at least 1 |
| `JsValues.Utf16Length` | Backend/src/controllers/auth.controller.ts:30 | `s.length` lies between the number of characters and twice that number |
| `JsValues.EncodeChar` | Backend/src/controllers/auth.controller.ts:30 | a character below 0x10000 is one code unit equal to itself; any other is a high surrogate followed by a low surrogate that together give back the character |
| `JsValues.EncodeUtf16` | Backend/src/controllers/auth.controller.ts:30 | every code unit of the encoding is a 16-bit value |
| `JsValues.Utf16LengthCountsCodeUnits` | Backend/src/controllers/auth.controller.ts:30 | `s.length` is exactly the number of code units of the UTF-16 encoding |
| `JsValues.Utf16LengthOfBmp` | Backend/src/controllers/auth.controller.ts:30 | for text made only of Basic Multilingual Plane characters, `s.length` is the number of characters |
| `ApiResponse.SendSuccess` | Backend/src/utils/api-response.ts:15-21 | the envelope is a well-formed success carrying exactly `data`; the status is 200 unless one is given |
| `ApiResponse.SendError` | Backend/src/utils/api-response.ts:23-34 | the envelope is a well-formed failure with no data, carrying the message; the code defaults to "INTERNAL_ERROR" and the status to 500; `details` is kept exactly when it is a non-null object |
| `Users.FirstMatch` | Backend/src/controllers/auth.controller.ts:34 | the document `findOne` picks matches the filter and no earlier one does; there is none exactly when no document matches |
| `Users.Lookup` | Backend/src/controllers/auth.controller.ts:34-37 | a query rejects exactly during an outage; otherwise it yields a matching document of the collection, or `null` exactly when none matches |
| `Users.SetPicture` | Backend/src/controllers/auth.controller.ts:121-125 | an update changes no id, name, email or password; only the picture of the document with the given id changes, to the new address |
| `Users.UpdatedDoc` | Backend/src/controllers/auth.controller.ts:121-127 | the resolved document is the document with the requested id, with the new picture, and it is in the updated collection; it is `null` exactly when no document has the id |
| `Users.SetPictureKeepsUnique` | Backend/src/controllers/auth.controller.ts:121-125 | a picture update keeps ids and emails unique |
| `Users.UserCollection.FindOne` | Backend/src/controllers/auth.controller.ts:34 | a query answers as `Lookup` on the current documents and is logged |
| `Users.UserCollection.Save` | Backend/src/controllers/auth.controller.ts:50 | saving appends the document, or rejects with the outage error and changes nothing |
| `Users.UserCollection.FindByIdAndUpdate` | Backend/src/controllers/auth.controller.ts:121-125 | the update applies `SetPicture` and resolves with `UpdatedDoc`, or rejects during an outage and changes nothing |
| `MediaHost.ImageHost.Upload` | Backend/src/controllers/auth.controller.ts:120 | an upload records the data and resolves with its secure address, or rejects and records nothing |
| `Http.Response.Send` | Backend/src/controllers/auth.controller.ts:28 | `res.status(s).json(b)` sets the status and body and leaves the cookies alone |
| `Http.Response.SetCookie` | Backend/src/controllers/auth.controller.ts:101 | `res.cookie` sets that one cookie |
| `AuthController.FormProblem` | Backend/src/controllers/auth.controller.ts:27-32 | a form passes exactly when all three fields are filled and the password has at least 6 UTF-16 units; missing fields take precedence over a short password |
| `AuthController.SignupCheck` | Backend/src/controllers/auth.controller.ts:27-37 | the first failing check decides, and a failing request check decides whatever the collection holds; signup passes exactly when the form is valid, the database is reachable and no document has the email; a valid form whose email is taken is refused with "Email already exists", and only then; a fault arises exactly from a query error after a valid form |
| `AuthController.ShortPasswordBoundary` | Backend/src/controllers/auth.controller.ts:30-32 | for Basic Multilingual Plane passwords the length check refuses exactly fewer than 6 characters, so 6 passes |
| `AuthController.SignupKeepsUnique` | Backend/src/controllers/auth.controller.ts:34-50 | a signup that passes its checks keeps emails and ids unique, given a fresh id |
| `AuthController.LoginCheck` | Backend/src/controllers/auth.controller.ts:72-80 | every refusal is the same "Invalid credentials"; an unknown email is refused; an admitted user is in the collection, has the email and matches the password |
| `AuthController.SignupHidesNonError` | Backend/src/controllers/auth.controller.ts:60-65 | when the email lookup throws a value that is not an `Error`, signup faults and answers "Internal Server Error" whatever the value holds |
| `AuthController.LoginHidesNonError` | Backend/src/controllers/auth.controller.ts:91-96 | when the lookup throws a value that is not an `Error`, login faults and answers "Internal Server Error" whatever the value holds |
| `AuthController.LoginAdmitsOwner` | Backend/src/controllers/auth.controller.ts:72-80 | with unique emails, login admits the owner of the email exactly when the password matches the stored hash |
| `AuthController.GenerateToken` | Backend/src/lib/utils.ts:3-16 | with no secret it throws and sets no cookie; otherwise it sets `jwt` to the token signed for the id, with a 7-day `maxAge` |
| `AuthController.Signup` | Backend/src/controllers/auth.controller.ts:24-66 | request checks issue no query; refusals answer 400 with the check's message, query errors 500, and neither stores anything nor sets a cookie; a success stores the hash of the password, sets the token cookie for the new id and answers 201 with the user minus the password |
| `AuthController.Login` | Backend/src/controllers/auth.controller.ts:68-97 | refusals answer 400 "Invalid credentials" with no cookie; a success sets the token for the user's id and answers 200 with the user minus the password; the collection is not changed |
| `AuthController.Logout` | Backend/src/controllers/auth.controller.ts:99-109 | the `jwt` cookie becomes "" with `maxAge` 0 and the answer is 200 |
| `AuthController.UpdateProfile` | Backend/src/controllers/auth.controller.ts:111-134 | an empty picture answers 400 with no upload and no query; an upload or database failure answers 500; otherwise the requesting user's document gets the uploaded address and is sent back with 200 |
| `AuthController.CheckAuth` | Backend/src/controllers/auth.controller.ts:136-145 | answers 200 with the attached user |
| `AuthMiddleware.TokenOf` | Backend/src/middleware/auth.middleware.ts:20 | `req.cookies?.jwt` is the value of the `jwt` cookie; the token guard passes exactly when that cookie was sent and is non-empty |
| `AuthMiddleware.Authorize` | Backend/src/middleware/auth.middleware.ts:18-36 | no token gives 401 "Unauthorized"; a thrown verify gives 500; an empty payload or missing `userId` gives 401 "Unauthorized - Token Invalid"; a database error gives 500; no user with the id gives 401 "Unauthorized - User Not Found"; every refusal is 401 or 500; the request is handed on exactly when all checks pass, with the password-less document of the user the token names |
| `AuthMiddleware.NonErrorThrownHidden` | Backend/src/middleware/auth.middleware.ts:37-42 | a value that is not an `Error`, thrown by `jwt.verify` or by the query, never reaches the reply: the decision is the same whatever it holds |
| `AuthMiddleware.AllowedUserIsTokenOwner` | Backend/src/middleware/auth.middleware.ts:30-35 | with unique ids, the attached user is the one document with the token's id |
| `AuthMiddleware.ProtectRoute` | Backend/src/middleware/auth.middleware.ts:18-43 | `next()` is called exactly when `Authorize` allows, with `req.user` set and the response untouched; otherwise the refusal is sent and `req.user` is unchanged; without a token no query is issued |
| `ChatStore.Repeat` | Frontend/src/store/useChatStore.ts:100 | n copies of one message |
| `ChatStore.DeliverAppendsPerMatch` | Frontend/src/store/useChatStore.ts:95-101 | one `newMessage` event appends the message once per listener that takes it, after the existing conversation |
| `ChatStore.MatchingOnlyCapturedSenders` | Frontend/src/store/useChatStore.ts:96-98 | no listener takes a message whose sender no store listener was installed for |
| `ChatStore.DeliveryExtends` | Frontend/src/store/useChatStore.ts:95-101 | delivery keeps the old conversation as a prefix and adds only copies of the message; nothing changes when no listener was installed for the sender |
| `ChatStore.WithoutEvent` | Frontend/src/store/useChatStore.ts:106 | `off(event)` removes every listener for the event and keeps every other listener as many times as it was registered |
| `ChatStore.WithoutEventAppend` | Frontend/src/store/useChatStore.ts:106 | `off(event)` keeps the surviving listeners in registration order |
| `ChatStore.DeliverAfterOff` | Frontend/src/store/useChatStore.ts:104-107 | after unsubscribing, an incoming message changes nothing |
| `ChatStore.SubscribingTwiceDuplicates` | Frontend/src/store/useChatStore.ts:88-101 | each subscription adds a listener, so two subscriptions for a user make each later message from that user arrive twice |
| `ChatStore.Socket.On` | Frontend/src/store/useChatStore.ts:95 | registering appends one listener |
| `ChatStore.Socket.Off` | Frontend/src/store/useChatStore.ts:106 | `off` removes every listener for that event |
| `ChatStore.Store.constructor` | Frontend/src/store/useChatStore.ts:43-47 | the store starts with no messages, no users, no selection and both flags false |
| `ChatStore.Store.GetUsers` | Frontend/src/store/useChatStore.ts:49-59 | on success the contact list becomes exactly the fetched list, on failure it is kept and a toast shown; the flag ends false; nothing else changes |
| `ChatStore.Store.GetMessages` | Frontend/src/store/useChatStore.ts:61-71 | on success the conversation becomes exactly the fetched list, on failure it is kept and a toast shown; the flag ends false; nothing else changes |
| `ChatStore.Store.SendMessage` | Frontend/src/store/useChatStore.ts:73-86 | with no selected user there is no request and no change; otherwise a success appends the server's message to the conversation and a failure keeps it |
| `ChatStore.Store.SubscribeToMessages` | Frontend/src/store/useChatStore.ts:88-102 | with no selected user or no socket nothing is registered; otherwise one listener bound to the selected user's id is added |
| `ChatStore.Store.UnsubscribeFromMessages` | Frontend/src/store/useChatStore.ts:104-107 | every `newMessage` listener is removed and the others kept |
| `ChatStore.Store.SetSelectedUser` | Frontend/src/store/useChatStore.ts:109 | only the selection changes |
| `ChatStore.Store.OnNewMessage` | Frontend/src/store/useChatStore.ts:95-101 | the listener appends the message exactly when its sender is the user selected at subscription time |
| `ChatStore.EmitNewMessage` | Frontend/src/store/useChatStore.ts:95-101 | calling the socket's listeners in order leaves the conversation equal to `Deliver` of the old one |
| `ChatStoreClient.ConversationLifecycle` | Frontend/src/components/ChatContainer.tsx:54-66 | opening a conversation, subscribing, receiving and unsubscribing: only messages from the user selected when subscribing are added, even after the selection moves on, and nothing arrives after unsubscribing; the scenario skips the `markMessagesAsRead` call at line 60, which is not part of this model |

## Left out

- The live-connection registry, message routing and read receipts are in
  `Backend/src/lib/socket`, which `Backend/src/index.ts:9` imports. That module
  is not part of this model, and neither is `markMessagesAsRead`, which
  `ChatContainer.tsx` calls but `useChatStore.ts` does not define.
- Interleavings are not modelled: each store action is one atomic step.
  `sendMessage` appends to the list it read before the request, so a message
  received during the request can be lost. `isUsersLoading` and
  `isMessagesLoading` are true only while a request is in flight, which an
  atomic step never shows.
- bcrypt, `jwt.sign`/`jwt.verify`, mongoose, the image host, axios and
  socket.io transport are parameters or small classes. Their internals are not
  modelled: hash strength, token expiry and the wire format of events.
- `ChatStore.EmitNewMessage` stands for socket.io calling its listeners. It
  assumes that listeners installed elsewhere in the client do not touch the chat
  store.
- A database outage is fixed for the length of one handler call. So a save that
  fails after the signup cookie was set is not modelled. Neither is any other
  reason a save could fail (schema validation, unique indexes): the user schema
  is not part of this model.
- The `else` branch of `if (newUser)` (auth.controller.ts:57-58) is not
  modelled: a constructed document is always truthy.
- The `catch` of `logout` and `checkAuth` is not modelled: nothing in their
  `try` blocks throws.
- The fields of `signup`, `login` and `updateProfile` requests are modelled as
  strings, missing or present (auth.controller.ts:25, 69 and 113 destructure
  untyped JSON). Other JSON values take paths the model does not have: a
  numeric `password` passes the length check because its `length` is
  `undefined`, an array of six strings passes it too, an object-valued `email`
  becomes a query filter, and a lone surrogate such as `"\uD800"` cannot be a
  character of the model's strings. What a `login` query with a missing email
  matches depends on how mongoose casts an `undefined` filter value, which this
  model does not fix.
- Malformed ids, which mongoose rejects with a cast error, are not modelled: ids
  are opaque strings.
- The `httpOnly`, `sameSite` and `secure` options of the token cookie are not
  modelled, only its value and `maxAge`.
- `AuthController.UpdateProfile` sends the whole updated document. Whether the
  password hash is serialised depends on the user schema, which is not part of
  this model.
- JavaScript numbers are modelled as integers (no `NaN`, no fractions). This
  affects only the truthiness of a numeric `details` argument, which is never
  attached either way.
- Toast display, React rendering and local storage are not modelled; the store
  actions return the text a toast would show.
