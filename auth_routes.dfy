/** routes/auth.js: the database-backed `/register` and `/login` routes. The
    `User` collection is a map from mobile to account; every awaited foreign
    step that can throw is named in a faults record, and a throw lands in the
    route's `catch`, which answers 500. */
module AuthRoutes {
  import opened Js
  import opened Crypto
  import opened Requests

  /** A `User` document; `id` is its `_id`, `password` the bcrypt hash. */
  datatype Account = Account(id: string, fullName: string, mobile: string, password: string, role: string)

  /** What `req.app.get('io').emit` broadcasts. */
  datatype Event = NewUserRegistered(fullName: string, role: string)

  datatype Body = Message(text: string) | TokenIssued(token: string)

  datatype Response = Response(status: nat, body: Body)

  /** Which step of registration throws: `User.findOne`, `bcrypt.hash`,
      `newUser.save`, `jwt.sign` or the emit. */
  datatype RegisterFaults = RegisterFaults(lookup: bool, hash: bool, save: bool, sign: bool, emit: bool)

  /** Which step of login throws: `User.findOne`, `bcrypt.compare` or
      `jwt.sign`. */
  datatype LoginFaults = LoginFaults(lookup: bool, compare: bool, sign: bool)

  /** Every account is filed under its own mobile. */
  ghost predicate KeyedByMobile(store: map<string, Account>)
  {
    forall m :: m in store ==> store[m].mobile == m
  }

  /** The router's view of the world: the `User` collection and the events
      broadcast so far. */
  class AuthRouter {
    const hasher: Hasher
    const tokens: TokenScheme<string>
    var store: map<string, Account>
    var events: seq<Event>

    ghost predicate Valid()
      reads this
    {
      KeyedByMobile(store)
    }

    constructor (hasher: Hasher, tokens: TokenScheme<string>, store: map<string, Account>)
      requires KeyedByMobile(store)
      ensures Valid()
      ensures this.hasher == hasher && this.tokens == tokens
      ensures this.store == store && events == []
    {
      this.hasher := hasher;
      this.tokens := tokens;
      this.store := store;
      events := [];
    }

    /** `POST /register`. The field check comes before any store access. A
        throw after `save` still answers 500 but leaves the account saved;
        the event goes out only when every step succeeded. `newId` is the
        `_id` mongoose assigns, `salt` the salt bcrypt draws. */
    method Register(form: RegisterForm, salt: Salt, newId: string, faults: RegisterFaults) returns (res: Response)
      requires Valid()
      modifies this
      ensures Valid()
      ensures !form.Complete() ==>
                res == Response(400, Message("All fields are required")) &&
                store == old(store) && events == old(events)
      ensures form.Complete() && faults.lookup ==>
                res == Response(500, Message("Server error during registration")) &&
                store == old(store) && events == old(events)
      ensures form.Complete() && !faults.lookup && form.mobile.value in old(store) ==>
                res == Response(409, Message("Mobile number already registered")) &&
                store == old(store) && events == old(events)
      ensures form.Complete() && !faults.lookup && form.mobile.value !in old(store) ==>
                var a := Account(newId, form.fullName.value, form.mobile.value,
                                 hasher.hash(form.password.value, salt), form.role.value);
                var saved := !faults.hash && !faults.save;
                var done := saved && !faults.sign && !faults.emit;
                && store == (if saved then old(store)[a.mobile := a] else old(store))
                && events == (if done then old(events) + [NewUserRegistered(a.fullName, a.role)] else old(events))
                && res == (if done then Response(201, TokenIssued(tokens.sign(newId)))
                           else Response(500, Message("Server error during registration")))
      ensures res.status == 500 <==>
                form.Complete() &&
                (faults.lookup ||
                 (form.mobile.value !in old(store) && (faults.hash || faults.save || faults.sign || faults.emit)))
    {
      if !form.Complete() {
        return Response(400, Message("All fields are required"));
      }
      var serverError := Response(500, Message("Server error during registration"));
      var mobile := form.mobile.value;
      if faults.lookup {
        return serverError;
      }
      if mobile in store {
        return Response(409, Message("Mobile number already registered"));
      }
      if faults.hash {
        return serverError;
      }
      var hashed := hasher.hash(form.password.value, salt);
      var account := Account(newId, form.fullName.value, mobile, hashed, form.role.value);
      if faults.save {
        return serverError;
      }
      store := store[mobile := account];
      if faults.sign {
        return serverError;
      }
      var token := tokens.sign(account.id);
      if faults.emit {
        return serverError;
      }
      events := events + [NewUserRegistered(account.fullName, account.role)];
      res := Response(201, TokenIssued(token));
    }

    /** `POST /login`: reads the store and nothing else. An unknown mobile
        and a wrong password get the same 401; a token is issued only for the
        account that holds the mobile given. */
    method Login(form: LoginForm, faults: LoginFaults) returns (res: Response)
      requires Valid()
      ensures res.status in {200, 400, 401, 500}
      ensures res.status == 400 <==> !form.Complete()
      ensures res.status == 400 ==> res.body == Message("Mobile and password required")
      ensures res.status == 500 <==>
                form.Complete() &&
                (faults.lookup ||
                 (form.mobile.value in store &&
                  (faults.compare || (hasher.compare(form.password.value, store[form.mobile.value].password) && faults.sign))))
      ensures res.status == 500 ==> res.body == Message("Server error during login")
      ensures res.status == 401 <==>
                form.Complete() && !faults.lookup &&
                (form.mobile.value !in store ||
                 (!faults.compare && !hasher.compare(form.password.value, store[form.mobile.value].password)))
      ensures res.status == 401 ==> res.body == Message("Invalid credentials")
      ensures res.status == 200 ==>
                form.mobile.value in store && store[form.mobile.value].mobile == form.mobile.value &&
                res.body == TokenIssued(tokens.sign(store[form.mobile.value].id))
    {
      if !form.Complete() {
        return Response(400, Message("Mobile and password required"));
      }
      var serverError := Response(500, Message("Server error during login"));
      if faults.lookup {
        return serverError;
      }
      var mobile := form.mobile.value;
      if mobile !in store {
        return Response(401, Message("Invalid credentials"));
      }
      var account := store[mobile];
      if faults.compare {
        return serverError;
      }
      var isMatch := hasher.compare(form.password.value, account.password);
      if !isMatch {
        return Response(401, Message("Invalid credentials"));
      }
      if faults.sign {
        return serverError;
      }
      var token := tokens.sign(account.id);
      res := Response(200, TokenIssued(token));
    }
  }

  /** A client of the router: a fault-free registration of a new mobile,
      a repeated registration and a login with the same credentials. */
  method RegisterThenLogin(r: AuthRouter, form: RegisterForm, salt: Salt, newId: string)
    returns (registered: Response, repeated: Response, loggedIn: Response)
    requires r.Valid() && Sound(r.hasher) && RoundTrips(r.tokens)
    requires form.Complete() && form.mobile.value !in r.store
    modifies r
    ensures r.Valid() && r.store.Keys == old(r.store.Keys) + {form.mobile.value}
    ensures |r.events| == |old(r.events)| + 1
    ensures registered.status == 201 && registered.body.TokenIssued?
    ensures repeated == Response(409, Message("Mobile number already registered"))
    ensures loggedIn.status == 200 && loggedIn.body.TokenIssued?
    ensures r.tokens.verify(loggedIn.body.token) == Some(newId)
    ensures r.tokens.verify(registered.body.token) == Some(newId)
  {
    var noFaults := RegisterFaults(false, false, false, false, false);
    registered := r.Register(form, salt, newId, noFaults);
    repeated := r.Register(form, salt + 1, newId, noFaults);
    loggedIn := r.Login(LoginForm(form.mobile, form.password), LoginFaults(false, false, false));
  }
}
