// Salted hashing and verification (src/Security/PasswordHelper.cc).
module Password {
  import opened Common
  import opened Hex

  // argon2i_hash_raw with the fixed costs both call sites use; None when it reports an error.
  type HashFn = (string, Bytes) -> Option<Bytes>

  // The salt comes from the caller; the result is the hash in hex and that salt.
  function HashPassword(h: HashFn, password: string, salt: Bytes): Result<(string, Bytes)> {
    match h(password, salt)
    case None => Throws("Error while trying to hash password with Argon2")
    case Some(raw) => Ok((ToHex(raw), salt))
  }

  function VerifyPassword(h: HashFn, password: string, hashHex: string, salt: Bytes): Result<bool> {
    match h(password, salt)
    case None => Throws("Error while trying to verify password with Argon2")
    case Some(raw) => Ok(ToHex(raw) == hashHex)
  }

  function VerifyUserPassword(h: HashFn, passwordHash: string, saltInHex: string, password: string): Result<bool> {
    match FromHex(saltInHex)
    case Throws(_) => Throws("Error while trying to verify user password")
    case Ok(salt) =>
      var r := VerifyPassword(h, password, passwordHash, salt);
      if r.Throws? then Throws("Error while trying to verify user password") else r
  }

  // Against what HashPassword stored, verification never fails to decode and accepts exactly the
  // passwords with the same raw hash under the same salt.
  lemma VerifiesIffSameHash(h: HashFn, p: string, salt: Bytes, q: string)
    requires h(p, salt).Some?
    ensures var (hashHex, salt') := HashPassword(h, p, salt).value;
      var r := VerifyUserPassword(h, hashHex, ToHex(salt'), q);
      && (r == Ok(true) <==> h(q, salt) == h(p, salt))
      && (r == Ok(false) <==> h(q, salt).Some? && h(q, salt) != h(p, salt))
      && (r.Throws? <==> h(q, salt).None?)
  {
    DecodeInvertsEncode(salt);
    if h(q, salt).Some? && ToHex(h(q, salt).value) == ToHex(h(p, salt).value) {
      EncodeInjective(h(q, salt).value, h(p, salt).value);
    }
  }

  // Hashing and verifying throw exactly when the hash function reports an error or the stored salt
  // cannot be decoded, with these messages; otherwise the texts are compared.
  lemma PasswordAnswers(h: HashFn, p: string, stored: string, salt: Bytes, saltInHex: string)
    ensures HashPassword(h, p, salt) ==
      if h(p, salt).None? then Throws("Error while trying to hash password with Argon2")
      else Ok((ToHex(h(p, salt).value), salt))
    ensures VerifyUserPassword(h, stored, saltInHex, p).Throws? <==>
      FromHex(saltInHex).Throws? || h(p, FromHex(saltInHex).value).None?
    ensures var r := VerifyUserPassword(h, stored, saltInHex, p);
      && (r.Throws? ==> r == Throws("Error while trying to verify user password"))
      && (r.Ok? ==> (r.value <==> ToHex(h(p, FromHex(saltInHex).value).value) == stored))
    ensures VerifyPassword(h, p, stored, salt).Throws? ==>
      VerifyPassword(h, p, stored, salt) == Throws("Error while trying to verify password with Argon2")
  {
    hide ToHex, FromHex;
  }

  // The two hex loops.
  method HashPasswordWithArgon2(h: HashFn, password: string, salt: Bytes) returns (r: Result<(string, Bytes)>)
    ensures r == HashPassword(h, password, salt)
  {
    var raw := h(password, salt);
    if raw.None? { return Throws("Error while trying to hash password with Argon2"); }
    var hex := ToHexString(raw.value);
    r := Ok((hex, salt));
  }

  method VerifyPasswordWithArgon2(h: HashFn, password: string, hashHex: string, salt: Bytes) returns (r: Result<bool>)
    ensures r == VerifyPassword(h, password, hashHex, salt)
  {
    var raw := h(password, salt);
    if raw.None? { return Throws("Error while trying to verify password with Argon2"); }
    var hex := ToHexString(raw.value);
    r := Ok(hex == hashHex);
  }

  method VerifyUser(h: HashFn, passwordHash: string, saltInHex: string, password: string) returns (r: Result<bool>)
    ensures r == VerifyUserPassword(h, passwordHash, saltInHex, password)
  {
    var salt := FromHexString(saltInHex);
    if salt.Throws? { return Throws("Error while trying to verify user password"); }
    r := VerifyPasswordWithArgon2(h, password, passwordHash, salt.value);
    if r.Throws? { r := Throws("Error while trying to verify user password"); }
  }
}
