/** Accounts: the stored user record with its salted password hash, the
    redacted form sent to clients, and the password operations. Hashes and
    salts are stored as lower-case hex text. */
module Users {
  import opened Wrappers
  import opened Hex
  import opened ServerRuntime

  datatype User = User(
    id: string,
    username: string,
    displayName: string,
    passwordHash: string,
    passwordSalt: string)

  /** What other users and the client may see of an account. */
  datatype RedactedUser = RedactedUser(id: string, username: string, displayName: string)

  /** The stored hash of `password` under `salt`. */
  function HashPassword(prims: Primitives, password: string, salt: seq<byte>): string
  {
    ToHex(prims.pbkdf2(prims.utf8(password), salt))
  }

  /** `User.verify`: hash the attempt with the stored salt and compare.
      A stored salt that is not hex text raises. */
  function Verify(u: User, attempt: string, prims: Primitives): (r: Result<bool, Exception>)
    ensures r.Err? <==> FromHex(u.passwordSalt).None?
    ensures r.Err? ==> r.error == MalformedHex
    ensures r.Ok? ==> (r.value <==> HashPassword(prims, attempt, FromHex(u.passwordSalt).value) == u.passwordHash)
  {
    match FromHex(u.passwordSalt)
    case None => Err(MalformedHex)
    case Some(salt) => Ok(HashPassword(prims, attempt, salt) == u.passwordHash)
  }

  /** `User.create` with the random salt and the generated id given: the
      password it was created with is accepted afterwards. */
  function CreateUser(id: string, username: string, displayName: string, password: string,
                      salt: seq<byte>, prims: Primitives): (u: User)
    ensures u.id == id && u.username == username && u.displayName == displayName
    ensures FromHex(u.passwordSalt) == Some(salt)
    ensures Verify(u, password, prims) == Ok(true)
  {
    FromHexToHex(salt);
    User(id, username, displayName, HashPassword(prims, password, salt), ToHex(salt))
  }

  /** `User.change_password`: a wrong old password raises and nothing
      changes; a right one replaces the hash and salt, so that the new
      password is accepted. */
  function ChangePassword(u: User, oldPassword: string, newPassword: string,
                          salt: seq<byte>, prims: Primitives): (r: Result<User, Exception>)
    ensures Verify(u, oldPassword, prims).Err? ==> r == Err(MalformedHex)
    ensures Verify(u, oldPassword, prims) == Ok(false) ==>
              r == Err(ValueError("Incorrect passphrase supplied"))
    ensures Verify(u, oldPassword, prims) == Ok(true) ==>
              r.Ok? && Verify(r.value, newPassword, prims) == Ok(true) &&
              r.value.id == u.id && r.value.username == u.username &&
              r.value.displayName == u.displayName
  {
    match Verify(u, oldPassword, prims)
    case Err(e) => Err(e)
    case Ok(false) => Err(ValueError("Incorrect passphrase supplied"))
    case Ok(true) =>
      FromHexToHex(salt);
      Ok(u.(passwordHash := HashPassword(prims, newPassword, salt), passwordSalt := ToHex(salt)))
  }

  /** `User.redact`: the id and the two names, nothing about the password. */
  function Redact(u: User): (r: RedactedUser)
    ensures r.id == u.id && r.username == u.username && r.displayName == u.displayName
  {
    RedactedUser(u.id, u.username, u.displayName)
  }

  /** Changing a password leaves the redacted form as it was. */
  lemma RedactIgnoresPassword(u: User, oldPassword: string, newPassword: string,
                              salt: seq<byte>, prims: Primitives)
    requires ChangePassword(u, oldPassword, newPassword, salt, prims).Ok?
    ensures Redact(ChangePassword(u, oldPassword, newPassword, salt, prims).value) == Redact(u)
  {
  }

  /** Once a password has been changed, the old one is refused unless the
      two hash alike under the new salt. */
  lemma OldPasswordRefused(u: User, oldPassword: string, newPassword: string,
                           salt: seq<byte>, prims: Primitives)
    requires ChangePassword(u, oldPassword, newPassword, salt, prims).Ok?
    requires prims.pbkdf2(prims.utf8(oldPassword), salt) != prims.pbkdf2(prims.utf8(newPassword), salt)
    ensures Verify(ChangePassword(u, oldPassword, newPassword, salt, prims).value, oldPassword, prims) == Ok(false)
  {
    var v := ChangePassword(u, oldPassword, newPassword, salt, prims).value;
    FromHexToHex(salt);
    if HashPassword(prims, oldPassword, salt) == v.passwordHash {
      ToHexInjective(prims.pbkdf2(prims.utf8(oldPassword), salt), prims.pbkdf2(prims.utf8(newPassword), salt));
    }
  }
}
