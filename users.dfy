/** User registration (`POST api/users`): field validation, a uniqueness check on the email,
    creation of the user with an avatar and a hashed password, and the signed token. */
module Users {
  import opened Common

  /** A stored user document. */
  datatype User = User(name: string, email: string, avatar: string, password: string)

  datatype GravatarOptions = GravatarOptions(s: string, r: string, d: string)

  /** The token payload `{ user: { id } }`. */
  datatype TokenPayload = TokenPayload(user: Claim)
  datatype Claim = Claim(id: Id)
  datatype SignOptions = SignOptions(expiresIn: nat)

  /** The foreign libraries the handler calls, injected as uninterpreted functions:
      express-validator's `isEmail`, `gravatar.url`, bcrypt's `genSalt` (its randomness is the
      `entropy` argument) and `hash`, and `jwt.sign` with the configured `jwtSecret`. */
  datatype Libraries = Libraries(
    isEmail: string -> bool,
    gravatarUrl: (string, GravatarOptions) -> string,
    genSalt: (nat, nat) -> string,
    hash: (string, string) -> string,
    sign: (TokenPayload, string, SignOptions) -> string,
    jwtSecret: string)

  const AvatarOptions := GravatarOptions("200", "pg", "mn")
  const SaltRounds: nat := 10
  const TokenLifetime: nat := 36000

  const NameRequired := "Name is a required field"
  const EmailInvalid := "Please include a valid email"
  const PasswordTooShort := "Please enter a password with 6 or more characters"
  const UserExists := "User already exists"

  /** What registration answers: `{ token }`, or 400 with `{ errors }`. */
  datatype RegisterReply = Issued(token: string) | Refused(errors: seq<string>)

  /** The three validator checks, run in order, each adding its message when it fails. */
  function RegistrationErrors(lib: Libraries, name: string, email: string, password: string): (errs: seq<string>)
    ensures errs == [] <==> name != "" && lib.isEmail(email) && |password| >= 6
    ensures NameRequired in errs <==> name == ""
    ensures EmailInvalid in errs <==> !lib.isEmail(email)
    ensures PasswordTooShort in errs <==> |password| < 6
    ensures |errs| <= 3
    ensures forall m :: m in errs ==> m in [NameRequired, EmailInvalid, PasswordTooShort]
    ensures forall i, j :: 0 <= i < j < |errs| ==> errs[i] != errs[j]
    ensures name == "" ==> errs[0] == NameRequired
    ensures |password| < 6 ==> errs[|errs| - 1] == PasswordTooShort
  {
    (if name == "" then [NameRequired] else [])
    + (if lib.isEmail(email) then [] else [EmailInvalid])
    + (if |password| >= 6 then [] else [PasswordTooShort])
  }

  /** The user collection, keyed by the store-assigned id. */
  class UserStore {
    var users: map<Id, User>

    /** No two users share an email. */
    ghost predicate EmailsUnique()
      reads this
    {
      forall a, b :: a in users && b in users && users[a].email == users[b].email ==> a == b
    }

    /** Some stored user has this email (`User.findOne({ email })`). */
    predicate EmailTaken(email: string)
      reads this
      ensures EmailTaken(email) <==> email in set k | k in users :: users[k].email
    {
      exists k :: k in users && users[k].email == email
    }

    constructor ()
      ensures users == map[] && EmailsUnique()
    {
      users := map[];
    }

    /** Registers a user; `newId` is the id the store assigns to the new document and
        `entropy` is the randomness `genSalt` draws on. */
    method Register(lib: Libraries, name: string, email: string, password: string, newId: Id, entropy: nat)
      returns (r: RegisterReply)
      requires newId !in users
      modifies this
      ensures var errs := RegistrationErrors(lib, name, email, password);
              errs != [] ==> r == Refused(errs) && users == old(users)
      ensures RegistrationErrors(lib, name, email, password) == [] && old(EmailTaken(email)) ==>
                r == Refused([UserExists]) && users == old(users)
      ensures RegistrationErrors(lib, name, email, password) == [] && !old(EmailTaken(email)) ==>
                && users == old(users)[newId := User(name, email, lib.gravatarUrl(email, AvatarOptions),
                                                     lib.hash(password, lib.genSalt(SaltRounds, entropy)))]
                && r == Issued(lib.sign(TokenPayload(Claim(newId)), lib.jwtSecret, SignOptions(TokenLifetime)))
      ensures old(EmailsUnique()) ==> EmailsUnique()
      ensures r.Issued? <==> |users| == |old(users)| + 1
    {
      var errs := RegistrationErrors(lib, name, email, password);
      if errs != [] {
        return Refused(errs);
      }
      if exists k :: k in users && users[k].email == email {
        return Refused([UserExists]);
      }
      var avatar := lib.gravatarUrl(email, AvatarOptions);
      var user := User(name, email, avatar, password);
      var salt := lib.genSalt(SaltRounds, entropy);
      user := user.(password := lib.hash(password, salt));
      users := users[newId := user];
      var payload := TokenPayload(Claim(newId));
      r := Issued(lib.sign(payload, lib.jwtSecret, SignOptions(TokenLifetime)));
    }
  }
}
