# shop-atl-backend: registry, auth routes and token gate in Dafny

This project models the request-handling core of a small marketplace backend
written for Node.js/Express:

- **server.js**: the stand-alone server. Two module-level arrays, `users`
  and `products`, are changed by four handlers: register, login, list
  products and create product. Two events, `newUserRegistered` and
  `newProductUploaded`, are broadcast over socket.io. The two product routes
  sit behind the bearer-token gate `authenticateToken`. The model is the class
  `Server.Registry`. It has the two arrays as `seq` fields, an event log, and
  one method per handler; each method returns the HTTP response.
  `Registry.Valid()` is the invariant every handler keeps: mobiles are unique,
  and every id is its position plus one.
- **routes/auth.js**: the same register/login decisions against the MongoDB
  `User` collection. The model is `AuthRoutes.AuthRouter`. The collection is a
  map from mobile to account. Each awaited foreign step that can throw is a
  flag in a faults record; a throw lands in the route's `catch` and gives 500.
- **middleware/verifyToken.js**: a second copy of the token gate, with its own
  messages. The model is the pure function `VerifyToken.VerifyToken`; `next()`
  with `req.user` set is its `Next(claims)` outcome.

Supporting modules:

- `Js` models the JavaScript semantics the handlers use. `undefined` is
  `None`, and `!x` on a string field rejects both `None` and `""`. It also
  has JSON scalars, array indexing that yields `undefined` past the end, and
  `String.prototype.split` with one separator character. `split` is proved
  inverse to `join`, and `At(Split(h, ' '), 1)` is proved to pick out the
  second space-separated piece.
- `Crypto` models bcrypt and jsonwebtoken as values the caller supplies
  (`Hasher`, `TokenScheme`). Their correctness is two predicates:
  `Sound` says `compare(p, hash(p, salt))` holds, and `RoundTrips` says an
  issued token is compact and `verify(sign(c)) == Some(c)`. The lemmas and
  client scenarios that need these predicates take them as `requires`.
- `Requests` holds the register and login request bodies and their field checks.

Inputs from outside the program are parameters: the salt bcrypt draws, the
`_id` mongoose assigns, and which foreign call throws.

Behaviour of the code worth noting:

- Product create accepts any price that is present: `0`, negative numbers,
  `null` and strings all pass. It does not require a non-negative number.
- routes/auth.js signs only `{ id }`, with no role.
- None of the three files checks the mobile number's format.
- A thrown `jwt.sign` or emit in routes/auth.js answers 500, but the account
  is already saved.

## Model

| member | source | states |
|---|---|---|
| Js.Split | server.js:35 | `split(' ')` always gives at least one piece, and no piece contains the separator |
| Js.JoinSplit | server.js:35 | joining the pieces of a split gives back the original header |
| Js.SplitJoin | server.js:35 | pieces without separators come back unchanged from a split of their join |
| Js.SplitWithoutSeparator | server.js:35 | a header with no space splits into one piece, so index 1 is `undefined` |
| Js.SplitAtFirstSeparator | server.js:35 | every header holding a space decomposes as `prefix + " " + t + rest` as `SecondPiece` needs, so the gate lemmas cover every header |
| Js.SecondPiece | middleware/verifyToken.js:7 | `split(' ')[1]` of `prefix + " " + t + rest` is `t` when `prefix` and `t` have no space and `rest` is empty or starts with a space |
| Server.FindByMobile | server.js:55 | `users.find`: `undefined` exactly when no user has the mobile; otherwise the first user with that mobile |
| Server.FindUnique | server.js:80 | with unique mobiles, the user found for a mobile is the one that holds it |
| Server.AuthenticateToken | server.js:31-43 | a refusal is always 401 or 403; a pass carries claims that some compact token verifies to |
| Server.GateWithoutSpace | server.js:33-36 | a header containing no space (e.g. `"Bearer"`) gives 401 |
| Server.GateOnSecondPiece | server.js:35-42 | if the second piece is empty (`"Bearer "`) the gate gives 401; if it fails verification, 403; if it verifies, the gate passes the decoded claims |
| Server.IssuedTokenPasses | server.js:38-41 | `Bearer <token>` for a token this server signed passes with exactly the signed claims |
| Server.Registry.constructor | server.js:27-28 | both arrays and the event log start empty, and the invariant holds |
| Server.Registry.Register | server.js:48-70 | missing/empty field: 400 and nothing changes. Taken mobile: 409 and nothing changes. Otherwise exactly one user is appended, with id `old |users| + 1` and password `hash(password, salt)`. One `newUserRegistered{fullName, role}` is logged, the response is 201 with a token over `{id, mobile, role}`, products are untouched, and the invariant is kept |
| Server.Registry.Login | server.js:73-93 | 400 exactly when mobile or password is missing or empty. With both present, 200 exactly when some user has the mobile and the password matches its hash, and the token is over that user's `{id, mobile, role}`. Every other outcome is 401 "Invalid credentials". Nothing is modified |
| Server.Registry.ListProducts | server.js:96-98 | if the gate refuses, its status is sent; otherwise 200 with the whole `products` array |
| Server.Registry.CreateProduct | server.js:101-121 | if the gate refuses, its status and nothing changes. Empty name or absent price: 400 and nothing changes; price 0 is accepted. Otherwise one product is appended with id `old |products| + 1`, `userId` from the verified claims and description defaulting to `""`. Exactly that record is logged as `newProductUploaded` and returned with 201 |
| Server.RegisterThenLogin | server.js:48-98 | a fresh registration succeeds. A login with a non-matching password gets 401. Login with the registered password gets 200, with a token that decodes to the new user's `{id, mobile, role}`. That token lists the products |
| AuthRoutes.AuthRouter.constructor | routes/auth.js:5 | the router starts over a store filed by mobile, with no events |
| AuthRoutes.AuthRouter.Register | routes/auth.js:9-47 | missing field: 400 before any store access. A lookup failure is 500 and a registered mobile is 409, in both cases with store and events unchanged. For a new mobile: the account, with hashed password, is saved exactly when hash and save succeed. One `newUserRegistered{fullName, role}` is logged and 201 with a token over `{id}` is sent only when every step succeeds. The response is 500 exactly when some foreign step threw |
| AuthRoutes.AuthRouter.Login | routes/auth.js:50-77 | 400 exactly when a field is missing. 500 "Server error during login" exactly when a foreign step threw. 401 "Invalid credentials" for both an unknown mobile and a wrong password. Otherwise 200 with a token over the `{id}` of the account that holds the given mobile. The store is never written |
| AuthRoutes.RegisterThenLogin | routes/auth.js:9-77 | a fault-free registration of a new mobile adds one account and one event. A repeat of it gets 409. Login with the same credentials gets 200, with a token that verifies to the new `_id` |
| VerifyToken.VerifyToken | middleware/verifyToken.js:3-15 | a refusal is either 401 "No token provided" or 403 "Invalid token"; `next` runs only with claims that some compact token verifies to |
| VerifyToken.NoHeaderOrNoSpace | middleware/verifyToken.js:4-8 | an absent or empty header, or one without a space, is 401 "No token provided" |
| VerifyToken.OnSecondPiece | middleware/verifyToken.js:7-13 | an empty second piece is 401; if verification fails, 403 "Invalid token"; if it succeeds, `next` with the decoded claims |
| VerifyToken.IssuedTokenCallsNext | middleware/verifyToken.js:10-13 | `Bearer <token>` for an issued token reaches `next` with exactly its claims |
| VerifyToken.AgreesWithServerGate | middleware/verifyToken.js:3-15 | each gate has its own verifier (the two files use different secrets). On any header, the middleware gives 401 exactly when `authenticateToken` does. On every other header both verify the same compact second piece, and each answers 403 or passes the claims according to its own verifier alone. Given the same verifier, the two gates therefore make the same decision |

## Left out

- bcrypt internals, the cost factor 10 and the 72-byte password limit: `Hasher` holds arbitrary functions, and the scenarios assume only `Sound`.
- JWT signing, secrets, expiry (`'1d'`, `'7d'`) and the clock: `TokenScheme` holds arbitrary functions, and an expired or forged token is a verification that yields `None`.
- The two token gates verify under different secrets. server.js uses its own `JWT_SECRET`, and middleware/verifyToken.js uses a literal of its own. So a token issued by server.js is in general refused with 403 by the middleware. The model gives each gate its own `TokenScheme` and does not relate the two verifiers.
- Claims shape: a token that verifies is taken to carry the claims type this server signs. A payload without `id` (possible only with a token signed elsewhere under the same secret) is not modelled.
- socket.io transport, connection and disconnect handlers: an emit is an append to the event log.
- Express routing, CORS, body parsing, `server.listen` and logging.
- `createdAt: new Date()` on products: a clock reading, so the field is omitted.
- Request-body fields other than `price` are JSON strings or absent. Numbers, booleans or objects sent for them are not modelled. JSON numbers are integers, not doubles.
- Server.Registry.CreateProduct: `price` is a JSON scalar. server.js also accepts a JSON array or object as price, stores it and sends it back, and the model cannot represent that value.
- Server.Registry.Register: `bcrypt.hash` is treated as total. In server.js a rejected hash has no `catch`, so no response would be sent.
- The check-then-insert races: in server.js across `await bcrypt.hash`, between the duplicate check and the push; in routes/auth.js between `User.findOne` and `newUser.save`. In both, a concurrent registration of the same mobile can slip in. Each handler runs atomically here, and the map store cannot hold two accounts with one mobile.
- routes/auth.js: a failed `save` is taken to write nothing, and the `_id` is supplied by the caller. A unique index on mobile is not part of this model, and models/User.js is not part of this model.
- routes/products.js: a fixed three-element list behind `verifyToken`, with no logic besides the gate.
- models/Product.js: a schema declaration only.
