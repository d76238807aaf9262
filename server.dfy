/** server.js: the in-memory registry behind the four routes of the
    stand-alone server. The module-level arrays `users` and `products` and
    the socket.io broadcasts become the fields of `Registry`; each route
    handler becomes a method that returns the HTTP response. */
module Server {
  import opened Js
  import opened Crypto
  import opened Requests

  /** An element of `users`; `password` holds the bcrypt hash. */
  datatype User = User(id: nat, fullName: string, mobile: string, password: string, role: string)

  /** The payload signed into every token this server issues. */
  datatype Claims = Claims(id: nat, mobile: string, role: string)

  /** An element of `products` (its `createdAt` timestamp is not modelled). */
  datatype Product = Product(id: nat, name: string, price: JsonValue, description: string, userId: nat)

  /** `{ name, price, description } = req.body` */
  datatype ProductForm = ProductForm(name: Option<string>, price: Option<JsonValue>, description: Option<string>)

  /** What `io.emit` broadcasts to every connected client. */
  datatype Event =
    | NewUserRegistered(fullName: string, role: string)
    | NewProductUploaded(product: Product)

  /** The JSON body of a response; `StatusText` is what `res.sendStatus` sends. */
  datatype Body =
    | Message(text: string)
    | TokenIssued(token: string)
    | ProductList(products: seq<Product>)
    | ProductCreated(product: Product)
    | StatusText

  datatype Response = Response(status: nat, body: Body)

  /** The outcome of `authenticateToken`: a status sent back, or `next()`
      with `req.user` set to the decoded claims. */
  datatype Gate = Deny(status: nat) | Pass(user: Claims)

  /** `{ id, mobile, role }` of a user, as signed into its tokens. */
  function ClaimsOf(u: User): (c: Claims)
  {
    Claims(u.id, u.mobile, u.role)
  }

  ghost predicate UniqueMobiles(users: seq<User>)
  {
    forall i, j :: 0 <= i < j < |users| ==> users[i].mobile != users[j].mobile
  }

  /** Every user's id is its position in `users` plus one. */
  ghost predicate UsersNumbered(users: seq<User>)
  {
    forall i :: 0 <= i < |users| ==> users[i].id == i + 1
  }

  /** Every product's id is its position in `products` plus one. */
  ghost predicate ProductsNumbered(products: seq<Product>)
  {
    forall i :: 0 <= i < |products| ==> products[i].id == i + 1
  }

  /** `users.find(u => u.mobile === mobile)`: the first user with that mobile. */
  function FindByMobile(users: seq<User>, mobile: string): (r: Option<User>)
    ensures r.None? <==> forall i :: 0 <= i < |users| ==> users[i].mobile != mobile
    ensures r.Some? ==> exists i :: 0 <= i < |users| && users[i] == r.value && r.value.mobile == mobile &&
                                   forall j :: 0 <= j < i ==> users[j].mobile != mobile
  {
    if |users| == 0 then None
    else if users[0].mobile == mobile then Some(users[0])
    else
      var r := FindByMobile(users[1..], mobile);
      assert forall i :: 1 <= i < |users| ==> users[i] == users[1..][i - 1];
      r
  }

  /** With mobiles unique, the user found for a mobile is the one holding it. */
  lemma FindUnique(users: seq<User>, i: nat)
    requires UniqueMobiles(users) && i < |users|
    ensures FindByMobile(users, users[i].mobile) == Some(users[i])
  {
  }

  /** `authenticateToken`: a missing or empty header, or one whose second
      space-separated piece is missing or empty, is answered 401; a token that
      does not verify, 403; otherwise the handler runs with the claims. */
  function AuthenticateToken(authorization: Option<string>, tokens: TokenScheme<Claims>): (r: Gate)
    ensures r.Deny? ==> r.status == 401 || r.status == 403
    ensures r.Pass? ==> Truthy(authorization) && exists t :: Compact(t) && tokens.verify(t) == Some(r.user)
  {
    if !Truthy(authorization) then Deny(401)
    else
      var token := At(Split(authorization.value, ' '), 1);
      if !Truthy(token) then Deny(401)
      else
        match tokens.verify(token.value)
        case None => Deny(403)
        case Some(user) => Pass(user)
  }

  /** A header without any space has no second piece: 401. */
  lemma GateWithoutSpace(header: string, tokens: TokenScheme<Claims>)
    requires ' ' !in header
    ensures AuthenticateToken(Some(header), tokens) == Deny(401)
  {
    SplitWithoutSeparator(header, ' ');
  }

  /** Every header holding a space is `prefix + " " + t + rest` with `t` its
      second piece (`SplitAtFirstSeparator` gives the decomposition): an empty `t` (`"Bearer "`, `"Bearer  x"`) is 401, a `t`
      that fails verification is 403, and a verified `t` passes its claims. */
  lemma GateOnSecondPiece(prefix: string, t: string, rest: string, tokens: TokenScheme<Claims>)
    requires ' ' !in prefix && ' ' !in t
    requires rest == "" || rest[0] == ' '
    ensures t == "" ==> AuthenticateToken(Some(prefix + " " + t + rest), tokens) == Deny(401)
    ensures t != "" && tokens.verify(t).None? ==> AuthenticateToken(Some(prefix + " " + t + rest), tokens) == Deny(403)
    ensures t != "" && tokens.verify(t).Some? ==>
              AuthenticateToken(Some(prefix + " " + t + rest), tokens) == Pass(tokens.verify(t).value)
  {
    SecondPiece(prefix, t, rest, ' ');
  }

  /** A token this server issued, sent as `Bearer <token>`, passes the gate
      with exactly the claims it was issued for. */
  lemma IssuedTokenPasses(tokens: TokenScheme<Claims>, c: Claims)
    requires RoundTrips(tokens)
    ensures AuthenticateToken(Some("Bearer " + tokens.sign(c)), tokens) == Pass(c)
  {
    var t := tokens.sign(c);
    assert "Bearer " + t == "Bearer" + " " + t + "";
    GateOnSecondPiece("Bearer", t, "", tokens);
  }

  /** The state of server.js: the two arrays and the log of broadcast events. */
  class Registry {
    const hasher: Hasher
    const tokens: TokenScheme<Claims>
    var users: seq<User>
    var products: seq<Product>
    var events: seq<Event>

    /** No two users share a mobile, and ids follow positions. */
    ghost predicate Valid()
      reads this
    {
      UniqueMobiles(users) && UsersNumbered(users) && ProductsNumbered(products)
    }

    /** `const users = []; const products = [];` */
    constructor (hasher: Hasher, tokens: TokenScheme<Claims>)
      ensures Valid()
      ensures this.hasher == hasher && this.tokens == tokens
      ensures users == [] && products == [] && events == []
    {
      this.hasher := hasher;
      this.tokens := tokens;
      users := [];
      products := [];
      events := [];
    }

    /** `POST /api/auth/register`; `salt` is the salt bcrypt draws. */
    method Register(form: RegisterForm, salt: Salt) returns (res: Response)
      requires Valid()
      modifies this
      ensures Valid()
      ensures products == old(products)
      ensures !form.Complete() ==>
                res == Response(400, Message("All fields required")) &&
                users == old(users) && events == old(events)
      ensures form.Complete() && (exists i :: 0 <= i < |old(users)| && old(users)[i].mobile == form.mobile.value) ==>
                res == Response(409, Message("User already exists")) &&
                users == old(users) && events == old(events)
      ensures form.Complete() && (forall i :: 0 <= i < |old(users)| ==> old(users)[i].mobile != form.mobile.value) ==>
                var u := User(|old(users)| + 1, form.fullName.value, form.mobile.value,
                              hasher.hash(form.password.value, salt), form.role.value);
                && users == old(users) + [u]
                && events == old(events) + [NewUserRegistered(u.fullName, u.role)]
                && res == Response(201, TokenIssued(tokens.sign(ClaimsOf(u))))
    {
      if !form.Complete() {
        return Response(400, Message("All fields required"));
      }
      var mobile := form.mobile.value;
      var existing := FindByMobile(users, mobile);
      if existing.Some? {
        return Response(409, Message("User already exists"));
      }
      var hashed := hasher.hash(form.password.value, salt);
      var newUser := User(|users| + 1, form.fullName.value, mobile, hashed, form.role.value);
      users := users + [newUser];
      var token := tokens.sign(ClaimsOf(newUser));
      events := events + [NewUserRegistered(newUser.fullName, newUser.role)];
      res := Response(201, TokenIssued(token));
    }

    /** `POST /api/auth/login`: reads `users` and nothing else. An unknown
        mobile and a wrong password get the same 401. */
    method Login(form: LoginForm) returns (res: Response)
      requires Valid()
      ensures res.status == 400 <==> !form.Complete()
      ensures res.status == 400 ==> res.body == Message("Mobile and password required")
      ensures form.Complete() ==>
                (res.status == 200 <==>
                   exists i :: 0 <= i < |users| && users[i].mobile == form.mobile.value &&
                               hasher.compare(form.password.value, users[i].password))
      ensures res.status == 200 ==>
                exists i :: 0 <= i < |users| && users[i].mobile == form.mobile.value &&
                            res == Response(200, TokenIssued(tokens.sign(ClaimsOf(users[i]))))
      ensures res.status != 200 && res.status != 400 ==> res == Response(401, Message("Invalid credentials"))
    {
      if !form.Complete() {
        return Response(400, Message("Mobile and password required"));
      }
      var user := FindByMobile(users, form.mobile.value);
      if user.None? {
        return Response(401, Message("Invalid credentials"));
      }
      var u := user.value;
      var passwordMatch := hasher.compare(form.password.value, u.password);
      if !passwordMatch {
        return Response(401, Message("Invalid credentials"));
      }
      var token := tokens.sign(ClaimsOf(u));
      res := Response(200, TokenIssued(token));
    }

    /** `GET /api/products` behind `authenticateToken`. */
    method ListProducts(authorization: Option<string>) returns (res: Response)
      ensures AuthenticateToken(authorization, tokens).Deny? ==>
                res == Response(AuthenticateToken(authorization, tokens).status, StatusText)
      ensures AuthenticateToken(authorization, tokens).Pass? ==> res == Response(200, ProductList(products))
    {
      var gate := AuthenticateToken(authorization, tokens);
      if gate.Deny? {
        return Response(gate.status, StatusText);
      }
      res := Response(200, ProductList(products));
    }

    /** `POST /api/products` behind `authenticateToken`: the owner comes from
        the verified claims, never from the body, and a price of any value,
        `0` and `null` included, is accepted as long as it is present. */
    method CreateProduct(authorization: Option<string>, form: ProductForm) returns (res: Response)
      requires Valid()
      modifies this
      ensures Valid()
      ensures users == old(users)
      ensures AuthenticateToken(authorization, tokens).Deny? ==>
                res == Response(AuthenticateToken(authorization, tokens).status, StatusText) &&
                products == old(products) && events == old(events)
      ensures AuthenticateToken(authorization, tokens).Pass? && (!Truthy(form.name) || form.price.None?) ==>
                res == Response(400, Message("Name and price required")) &&
                products == old(products) && events == old(events)
      ensures AuthenticateToken(authorization, tokens).Pass? && Truthy(form.name) && form.price.Some? ==>
                var p := Product(|old(products)| + 1, form.name.value, form.price.value,
                                 OrElse(form.description, ""), AuthenticateToken(authorization, tokens).user.id);
                && products == old(products) + [p]
                && events == old(events) + [NewProductUploaded(p)]
                && res == Response(201, ProductCreated(p))
    {
      var gate := AuthenticateToken(authorization, tokens);
      if gate.Deny? {
        return Response(gate.status, StatusText);
      }
      if !Truthy(form.name) || form.price.None? {
        return Response(400, Message("Name and price required"));
      }
      var product := Product(|products| + 1, form.name.value, form.price.value,
                             OrElse(form.description, ""), gate.user.id);
      products := products + [product];
      events := events + [NewProductUploaded(product)];
      res := Response(201, ProductCreated(product));
    }
  }

  /** A client of the registry: a fresh registration, a login with a wrong
      and with the right password, and a product listing with the token the
      login issued. */
  method RegisterThenLogin(r: Registry, fullName: string, mobile: string, password: string, role: string,
                           salt: Salt, wrong: string)
    returns (registered: Response, rejected: Response, loggedIn: Response, listed: Response)
    requires r.Valid() && Sound(r.hasher) && RoundTrips(r.tokens)
    requires fullName != "" && mobile != "" && password != "" && role != "" && wrong != ""
    requires forall i :: 0 <= i < |r.users| ==> r.users[i].mobile != mobile
    requires !r.hasher.compare(wrong, r.hasher.hash(password, salt))
    modifies r
    ensures r.Valid() && |r.users| == |old(r.users)| + 1
    ensures registered.status == 201 && registered.body.TokenIssued?
    ensures rejected == Response(401, Message("Invalid credentials"))
    ensures loggedIn.status == 200 && loggedIn.body.TokenIssued?
    ensures r.tokens.verify(loggedIn.body.token) == Some(Claims(|old(r.users)| + 1, mobile, role))
    ensures r.tokens.verify(registered.body.token) == r.tokens.verify(loggedIn.body.token)
    ensures listed == Response(200, ProductList(r.products))
  {
    registered := r.Register(RegisterForm(Some(fullName), Some(mobile), Some(password), Some(role)), salt);
    var u := r.users[|r.users| - 1];
    assert u.password == r.hasher.hash(password, salt);
    assert forall i :: 0 <= i < |r.users| && r.users[i].mobile == mobile ==> i == |r.users| - 1;
    rejected := r.Login(LoginForm(Some(mobile), Some(wrong)));
    loggedIn := r.Login(LoginForm(Some(mobile), Some(password)));
    IssuedTokenPasses(r.tokens, ClaimsOf(u));
    listed := r.ListProducts(Some("Bearer " + loggedIn.body.token));
  }
}
