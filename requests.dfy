/** The JSON bodies of the registration and login requests, shared by
    server.js and routes/auth.js, with the field checks both apply. */
module Requests {
  import opened Js

  /** `{ fullName, mobile, password, role } = req.body` */
  datatype RegisterForm = RegisterForm(
    fullName: Option<string>, mobile: Option<string>, password: Option<string>, role: Option<string>)
  {
    /** `!(!fullName || !mobile || !password || !role)` */
    predicate Complete()
    {
      Truthy(fullName) && Truthy(mobile) && Truthy(password) && Truthy(role)
    }
  }

  /** `{ mobile, password } = req.body` */
  datatype LoginForm = LoginForm(mobile: Option<string>, password: Option<string>)
  {
    /** `!(!mobile || !password)` */
    predicate Complete()
    {
      Truthy(mobile) && Truthy(password)
    }
  }
}
