// PBKDF2 password strings (src/security/password_hasher.cpp):
// $pbkdf2-sha256$<iterations>$<base64 salt>$<base64 hash>
module PasswordHasher {
  import opened Common
  import opened Base64

  // PKCS5_PBKDF2_HMAC with SHA-256: password, salt, iterations (a C int), key length.
  type Kdf = (string, seq<byte>, int, nat) -> Option<seq<byte>>

  ghost predicate FillsBuffer(kdf: Kdf) {
    forall p, salt, n, len :: kdf(p, salt, n, len).Some? ==> |kdf(p, salt, n, len).value| == len
  }

  const PREFIX: string := "$pbkdf2-sha256$"
  const HASH_BYTES: nat := 32
  const UINT32: nat := 0x1_0000_0000
  const ULONG: nat := 0x1_0000_0000_0000_0000

  // static_cast<int> of a uint32_t.
  function ToInt(n: nat): int { if n < UINT32 / 2 then n else n - UINT32 }

  // std::to_string.
  function Decimal(n: nat): string {
    if n < 10 then ['0' + n as char] else Decimal(n / 10) + ['0' + (n % 10) as char]
  }

  function Stored(iterations: nat, salt: seq<byte>, hash: seq<byte>): string {
    PREFIX + (Decimal(iterations) + "$" + (StdText(salt) + "$" + StdText(hash)))
  }

  // Hash, for the salt that RAND_bytes drew, if it did.
  function Hash(kdf: Kdf, iterations: nat, password: string, salt: Option<seq<byte>>): Result<string> {
    match salt
    case None => Err(InternalError)
    case Some(bytes) =>
      match kdf(password, bytes, ToInt(iterations), HASH_BYTES)
      case None => Err(InternalError)
      case Some(hash) => Ok(Stored(iterations, bytes, hash))
  }

  // ── std::stoul ─────────────────────────────────────────────────────────────

  predicate IsSpace(c: char) { c == ' ' || 9 <= c as int <= 13 }

  predicate IsDigit(c: char) { '0' <= c <= '9' }

  function SkipSpaces(s: string): string {
    if s != "" && IsSpace(s[0]) then SkipSpaces(s[1..]) else s
  }

  function LeadingDigits(s: string): string {
    if s != "" && IsDigit(s[0]) then [s[0]] + LeadingDigits(s[1..]) else ""
  }

  function Value(digits: string): int {
    if digits == "" then 0
    else Value(digits[..|digits| - 1]) * 10 + (digits[|digits| - 1] as int - '0' as int)
  }

  // None when it throws: nothing to convert, or out of the range of unsigned long.
  function Stoul(s: string): Option<int> {
    var t := SkipSpaces(s);
    var signed := t != "" && t[0] in "+-";
    var digits := LeadingDigits(if signed then t[1..] else t);
    var v := Value(digits);
    if digits == "" || v >= ULONG then None
    else if signed && t[0] == '-' then Some((ULONG - v) % ULONG)
    else Some(v)
  }

  // ── Verify ─────────────────────────────────────────────────────────────────

  datatype Fields = Fields(iterations: int, salt: seq<byte>, hash: seq<byte>)

  // The part behind the prefix.
  function ParseFields(rest: string): Option<Fields> {
    match IndexOf(rest, '$', 0)
    case None => None
    case Some(d1) =>
      match Stoul(rest[..d1])
      case None => None
      case Some(n) =>
        var tail := rest[d1 + 1..];
        match IndexOf(tail, '$', 0)
        case None => None
        case Some(d2) => Some(Fields(n % UINT32, Decoded(tail[..d2]), Decoded(tail[d2 + 1..])))
  }

  function ParseStored(s: string): Option<Fields> {
    if !(PREFIX <= s) then None else ParseFields(s[|PREFIX|..])
  }

  function Verify(kdf: Kdf, password: string, stored: string): bool {
    match ParseStored(stored)
    case None => false
    case Some(f) =>
      if f.salt == [] || f.hash == [] then false
      else
        match kdf(password, f.salt, ToInt(f.iterations), |f.hash|)
        case None => false
        case Some(computed) => computed == f.hash
  }

  // ── Round trip ─────────────────────────────────────────────────────────────

  lemma {:induction false} DecimalDigits(n: nat)
    ensures Decimal(n) != "" && forall i | 0 <= i < |Decimal(n)| :: IsDigit(Decimal(n)[i])
    ensures Value(Decimal(n)) == n
  {
    if n >= 10 {
      DecimalDigits(n / 10);
      assert Decimal(n)[..|Decimal(n)| - 1] == Decimal(n / 10);
    } else {
      assert Decimal(n)[..0] == "";
    }
  }

  lemma {:induction false} AllDigits(s: string)
    requires forall i | 0 <= i < |s| :: IsDigit(s[i])
    ensures LeadingDigits(s) == s
  {
    if s != "" {
      AllDigits(s[1..]);
    }
  }

  lemma {:induction false} StoulDecimal(n: nat)
    requires n < ULONG
    ensures Stoul(Decimal(n)) == Some(n)
  {
    DecimalDigits(n);
    AllDigits(Decimal(n));
  }

  lemma {:induction false} SplitsAtFirst(x: string, y: string)
    requires '$' !in x
    ensures var s := x + "$" + y;
      IndexOf(s, '$', 0) == Some(|x|) && s[..|x|] == x && s[|x| + 1..] == y
  {
    var s := x + "$" + y;
    assert s[0..|x|] == x;
    IndexOfSeparator(s, '$', 0, |x|);
  }

  lemma {:induction false} ParseFieldsRoundTrip(iterations: nat, salt: seq<byte>, hash: seq<byte>)
    requires iterations < UINT32
    ensures ParseFields(Decimal(iterations) + "$" + (StdText(salt) + "$" + StdText(hash)))
      == Some(Fields(iterations, salt, hash))
  {
    hide StdText, Decoded, Decimal, Stoul, IndexOf;
    DecimalDigits(iterations);
    StoulDecimal(iterations);
    SplitsAtFirst(Decimal(iterations), StdText(salt) + "$" + StdText(hash));
    TextShape(salt);
    SplitsAtFirst(StdText(salt), StdText(hash));
    StdRoundTrip(salt);
    StdRoundTrip(hash);
  }

  // Parsing a stored string recovers exactly what was put in it.
  lemma {:induction false} ParseStoredRoundTrip(iterations: nat, salt: seq<byte>, hash: seq<byte>)
    requires iterations < UINT32
    ensures ParseStored(Stored(iterations, salt, hash)) == Some(Fields(iterations, salt, hash))
  {
    hide StdText, Decimal, ParseFields;
    var rest := Decimal(iterations) + "$" + (StdText(salt) + "$" + StdText(hash));
    ParseFieldsRoundTrip(iterations, salt, hash);
    assert (PREFIX + rest)[|PREFIX|..] == rest;
  }

  // A stored string accepts a password iff it derives the key that was stored.
  lemma {:induction false} VerifyHash(kdf: Kdf, iterations: nat, password: string, salt: seq<byte>, attempt: string)
    requires iterations < UINT32 && salt != [] && FillsBuffer(kdf)
    requires kdf(password, salt, ToInt(iterations), HASH_BYTES).Some?
    ensures var stored := Hash(kdf, iterations, password, Some(salt));
      && stored.Ok?
      && (Verify(kdf, attempt, stored.value) <==>
            kdf(attempt, salt, ToInt(iterations), HASH_BYTES) == kdf(password, salt, ToInt(iterations), HASH_BYTES))
      && Verify(kdf, password, stored.value)
  {
    var hash := kdf(password, salt, ToInt(iterations), HASH_BYTES).value;
    ParseStoredRoundTrip(iterations, salt, hash);
    assert |hash| == HASH_BYTES;
  }

  // ── What is accepted at all ────────────────────────────────────────────────

  // The number of iterations used is the one configured, as long as it fits an int.
  lemma {:induction false} HashDerives(kdf: Kdf, iterations: nat, password: string, salt: seq<byte>)
    requires iterations < 0x8000_0000
    ensures Hash(kdf, iterations, password, Some(salt)) ==
      match kdf(password, salt, iterations, 32)
      case None => Err(InternalError)
      case Some(key) =>
        Ok("$pbkdf2-sha256$" + (Decimal(iterations) + "$" + (StdText(salt) + "$" + StdText(key))))
    ensures Hash(kdf, iterations, password, None) == Err(InternalError)
  {
    hide StdText, Decimal;
  }

  // The stored format: a prefix, a number, and two encoded fields that are not empty.
  ghost predicate HasFields(stored: string, n: string, salt: string, hash: string) {
    && stored == "$pbkdf2-sha256$" + (n + "$" + (salt + "$" + hash))
    && '$' !in n && '$' !in salt
  }

  predicate Accepts(kdf: Kdf, password: string, n: string, salt: string, hash: string) {
    && Stoul(n).Some? && Decoded(salt) != [] && Decoded(hash) != []
    && var count := Stoul(n).value % 0x1_0000_0000;
       kdf(password, Decoded(salt), if count < 0x8000_0000 then count else count - 0x1_0000_0000, |Decoded(hash)|)
         == Some(Decoded(hash))
  }

  lemma {:induction false} FieldsParse(stored: string, n: string, salt: string, hash: string)
    requires HasFields(stored, n, salt, hash)
    ensures ParseStored(stored) ==
      if Stoul(n).None? then None else Some(Fields(Stoul(n).value % 0x1_0000_0000, Decoded(salt), Decoded(hash)))
  {
    hide Stoul, Decoded, IndexOf;
    var tail := salt + "$" + hash;
    SplitsAtFirst(n, tail);
    SplitsAtFirst(salt, hash);
    assert stored[|PREFIX|..] == n + "$" + tail;
  }

  lemma {:induction false} ParsedHasFields(stored: string) returns (n: string, salt: string, hash: string)
    requires ParseStored(stored).Some?
    ensures HasFields(stored, n, salt, hash)
  {
    hide Stoul, Decoded;
    var rest := stored[|PREFIX|..];
    var d1 := IndexOf(rest, '$', 0).value;
    var tail := rest[d1 + 1..];
    var d2 := IndexOf(tail, '$', 0).value;
    n, salt, hash := rest[..d1], tail[..d2], tail[d2 + 1..];
    assert rest[0..d1] == n && tail[0..d2] == salt;
    assert tail == salt + "$" + hash;
    assert rest == n + "$" + tail;
    assert stored == PREFIX + rest;
  }

  // A password is accepted iff the string has the stored format and the password derives
  // the key in it; any other string is refused for every password.
  lemma {:induction false} VerifyIff(kdf: Kdf, password: string, stored: string)
    ensures Verify(kdf, password, stored) <==>
      exists n, salt, hash :: HasFields(stored, n, salt, hash) && Accepts(kdf, password, n, salt, hash)
  {
    hide Stoul, Decoded, ParseStored, HasFields;
    if Verify(kdf, password, stored) {
      var n, salt, hash := ParsedHasFields(stored);
      FieldsParse(stored, n, salt, hash);
      assert Accepts(kdf, password, n, salt, hash);
    }
    forall n, salt, hash | HasFields(stored, n, salt, hash) && Accepts(kdf, password, n, salt, hash)
      ensures Verify(kdf, password, stored)
    {
      FieldsParse(stored, n, salt, hash);
    }
  }

  // ── What a number is ───────────────────────────────────────────────────────

  lemma {:induction false} SpacesAreSkipped(spaces: string, s: string)
    requires (forall c | c in spaces :: IsSpace(c)) && (s == "" || !IsSpace(s[0]))
    ensures SkipSpaces(spaces + s) == s
  {
    if spaces == "" {
      assert spaces + s == s;
    } else {
      assert (spaces + s)[1..] == spaces[1..] + s;
      SpacesAreSkipped(spaces[1..], s);
    }
  }

  lemma {:induction false} DigitsAreRead(digits: string, rest: string)
    requires (forall c | c in digits :: IsDigit(c)) && (rest == "" || !IsDigit(rest[0]))
    ensures LeadingDigits(digits + rest) == digits
  {
    if digits == "" {
      assert digits + rest == rest;
    } else {
      assert (digits + rest)[1..] == digits[1..] + rest;
      DigitsAreRead(digits[1..], rest);
    }
  }

  // stoul reads white space, an optional sign and decimal digits, and stops at anything else;
  // a minus sign negates modulo 2^64, a number from 2^64 on and a missing one are errors.
  lemma {:induction false} StoulReads(spaces: string, sign: string, digits: string, rest: string)
    requires (forall c | c in spaces :: IsSpace(c)) && sign in {"", "+", "-"}
    requires (forall c | c in digits :: IsDigit(c)) && (rest == "" || !IsDigit(rest[0]))
    requires sign + digits == "" ==> rest == "" || (!IsSpace(rest[0]) && rest[0] !in "+-")
    ensures Stoul(spaces + (sign + (digits + rest))) ==
      if digits == "" || Value(digits) >= 0x1_0000_0000_0000_0000 then None
      else if sign == "-" then Some((0x1_0000_0000_0000_0000 - Value(digits)) % 0x1_0000_0000_0000_0000)
      else Some(Value(digits))
  {
    var t := sign + (digits + rest);
    if digits != "" {
      assert digits[0] in digits && (sign == "" ==> t[0] == digits[0]);
    }
    SpacesAreSkipped(spaces, t);
    DigitsAreRead(digits, rest);
    if sign == "" {
      assert t == digits + rest;
    } else {
      assert t[1..] == digits + rest;
    }
  }
}
