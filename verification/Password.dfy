/** The argon2id hash string: printed by `HashPassword`, parsed back by `VerifyPassword`. */
module Password {
  import opened Prelude
  import Text
  import Decimal
  import Base64

  type uint32 = x: int | 0 <= x < 0x1_0000_0000

  datatype Params = Params(costs: Costs, keyLength: uint32, saltLength: uint32)

  const DEFAULT_PARAMS := Params(Costs(64 * 1024, 3, 2), 32, 16)

  /** `argon2.Version`. */
  const VERSION: nat := 0x13

  datatype Costs = Costs(memory: uint32, iterations: uint32, parallelism: byte)

  /** `argon2.IDKey`: password, salt, costs, and the requested key length. */
  type KeyDerivation = f: (string, Bytes, Costs, nat) -> Bytes
    | forall pw, salt, costs, n :: |f(pw, salt, costs, n)| == n
    witness (pw: string, salt: Bytes, costs: Costs, n: nat) => seq(n, _ => 0)

  /** argon2 panics without a pass or a lane, and so does its final hash without output. */
  predicate Legal(costs: Costs, keyLength: nat) {
    costs.iterations >= 1 && costs.parallelism >= 1 && keyLength >= 1
  }

  datatype HashOutcome = Encoded(text: string) | HashPanics

  function PrintVersion(): string {
    "v=" + Decimal.Print(VERSION)
  }

  function PrintCosts(c: Costs): string {
    "m=" + Decimal.Print(c.memory) + ",t=" + Decimal.Print(c.iterations) + ",p=" + Decimal.Print(c.parallelism)
  }

  /** The text between dollar signs; the string starts with one. */
  function Assemble(version: string, costs: string, salt: string, key: string): string {
    Text.Join(["", "argon2id", version, costs, salt, key], '$')
  }

  function Render(costs: Costs, salt: Bytes, key: Bytes): string {
    Assemble(PrintVersion(), PrintCosts(costs), Base64.Encode(Base64.Std, salt), Base64.Encode(Base64.Std, key))
  }

  /** `salt` is the random buffer of `p.saltLength` bytes. */
  function HashPassword(kdf: KeyDerivation, password: string, p: Params, salt: Bytes): HashOutcome
    requires |salt| == p.saltLength
  {
    if !Legal(p.costs, p.keyLength) then HashPanics
    else Encoded(Render(p.costs, salt, kdf(password, salt, p.costs, p.keyLength)))
  }

  datatype VerifyOutcome =
    | Match | Mismatch
    | InvalidHash | InvalidVariant | MalformedVersion | IncompatibleVersion
    | MalformedParams | MalformedSalt | MalformedKey
    | VerifyPanics

  /** `Sscanf(s, "v=%d", &version)`; text after the number is ignored. */
  function ScanVersion(s: string): Option<int> {
    if !Text.HasPrefix(s, "v=") then None
    else
      match Decimal.ScanSigned(s[2..])
      case Failed => None
      case Scanned(v, _) => Some(v)
  }

  /** `Sscanf(s, "m=%d,t=%d,p=%d", ...)`. */
  function ScanCosts(s: string): Option<Costs> {
    var m := Decimal.ScanField("m=", s, 0x1_0000_0000);
    if m.Failed? then None
    else
      var t := Decimal.ScanField(",t=", m.rest, 0x1_0000_0000);
      if t.Failed? then None
      else
        var p := Decimal.ScanField(",p=", t.rest, 0x100);
        if p.Failed? then None else Some(Costs(m.value, t.value, p.value))
  }

  function VerifyPassword(kdf: KeyDerivation, password: string, hash: string): VerifyOutcome {
    var parts := Text.Split(hash, '$');
    if |parts| != 6 then InvalidHash
    else if parts[1] != "argon2id" then InvalidVariant
    else Judge(kdf, password, ScanVersion(parts[2]), ScanCosts(parts[3]),
               Base64.Decode(Base64.Std, parts[4]), Base64.Decode(Base64.Std, parts[5]))
  }

  /** The parsed parts in the order in which they are looked at. */
  function Judge(kdf: KeyDerivation, password: string, version: Option<int>, costs: Option<Costs>,
                 salt: Option<Bytes>, key: Option<Bytes>): VerifyOutcome
  {
    if version == None then MalformedVersion
    else if version.value != VERSION then IncompatibleVersion
    else if costs == None then MalformedParams
    else if salt == None then MalformedSalt
    else if key == None then MalformedKey
    else Compare(kdf, password, costs.value, salt.value, key.value)
  }

  function Compare(kdf: KeyDerivation, password: string, costs: Costs, salt: Bytes, key: Bytes): VerifyOutcome {
    var keyLength := |key| % 0x1_0000_0000;
    if !Legal(costs, keyLength) then VerifyPanics
    else if kdf(password, salt, costs, keyLength) == key then Match
    else Mismatch
  }

  // Parsing recovers what was printed

  lemma VersionRoundTrip()
    ensures ScanVersion(PrintVersion()) == Some(VERSION)
  {
    var d := Decimal.Print(VERSION);
    assert ("v=" + d)[..2] == "v=" && ("v=" + d)[2..] == d + "";
    Decimal.ScanPrinted(VERSION, "", VERSION + 1);
  }

  lemma CostsRoundTrip(p: Costs)
    ensures ScanCosts(PrintCosts(p)) == Some(p)
  {
    var m, t, l := Decimal.Print(p.memory), Decimal.Print(p.iterations), Decimal.Print(p.parallelism);
    var afterT := ",p=" + (l + "");
    var afterM := ",t=" + (t + afterT);
    assert "m=" + (m + afterM) == "m=" + m + ",t=" + t + ",p=" + l;
    Decimal.FieldRoundTrip("m=", p.memory, afterM, 0x1_0000_0000);
    Decimal.FieldRoundTrip(",t=", p.iterations, afterT, 0x1_0000_0000);
    Decimal.FieldRoundTrip(",p=", p.parallelism, "", 0x100);
  }

  predicate NoDollar(s: string) {
    forall i :: 0 <= i < |s| ==> s[i] != '$'
  }

  lemma {:induction false} PrintNoDollar(n: nat)
    ensures NoDollar(Decimal.Print(n))
  {
    Decimal.PrintValue(n);
    assert forall i :: 0 <= i < |Decimal.Print(n)| ==> Decimal.IsDigit(Decimal.Print(n)[i]);
  }

  lemma EncodeNoDollar(b: Bytes)
    ensures NoDollar(Base64.Encode(Base64.Std, b))
  {
    Base64.EncodeInAlphabet(Base64.Std, b);
    assert forall i :: 0 <= i < |Base64.Encode(Base64.Std, b)| ==>
                         Base64.IsAlphabetChar(Base64.Std, Base64.Encode(Base64.Std, b)[i]);
  }

  /** Parts without a dollar sign are found again exactly by splitting. */
  lemma SplitAssembled(version: string, costs: string, salt: string, key: string)
    requires NoDollar(version) && NoDollar(costs) && NoDollar(salt) && NoDollar(key)
    ensures Text.Split(Assemble(version, costs, salt, key), '$') == ["", "argon2id", version, costs, salt, key]
  {
    var parts := ["", "argon2id", version, costs, salt, key];
    assert NoDollar("argon2id");
    forall i | 0 <= i < 6 ensures '$' !in parts[i] {
      assert NoDollar(parts[i]);
    }
    Text.SplitOfJoin(parts, '$');
  }

  lemma VerifyAssembled(kdf: KeyDerivation, password: string, version: string, costsText: string,
                        saltText: string, keyText: string, costs: Costs, salt: Bytes, key: Bytes)
    requires NoDollar(version) && NoDollar(costsText) && NoDollar(saltText) && NoDollar(keyText)
    requires ScanVersion(version) == Some(VERSION) && ScanCosts(costsText) == Some(costs)
    requires Base64.Decode(Base64.Std, saltText) == Some(salt) && Base64.Decode(Base64.Std, keyText) == Some(key)
    ensures VerifyPassword(kdf, password, Assemble(version, costsText, saltText, keyText))
            == Compare(kdf, password, costs, salt, key)
  {
    SplitAssembled(version, costsText, saltText, keyText);
  }

  lemma PrintedCostsNoDollar(c: Costs)
    ensures NoDollar(PrintCosts(c)) && NoDollar(PrintVersion())
  {
    PrintNoDollar(VERSION);
    PrintNoDollar(c.memory);
    PrintNoDollar(c.iterations);
    PrintNoDollar(c.parallelism);
  }

  /** Whatever was printed is parsed back: the costs, the salt and the key. */
  lemma ParsesBack(kdf: KeyDerivation, password: string, costs: Costs, salt: Bytes, key: Bytes)
    ensures VerifyPassword(kdf, password, Render(costs, salt, key)) == Compare(kdf, password, costs, salt, key)
  {
    var saltText, keyText := Base64.Encode(Base64.Std, salt), Base64.Encode(Base64.Std, key);
    PrintedCostsNoDollar(costs);
    EncodeNoDollar(salt);
    EncodeNoDollar(key);
    VersionRoundTrip();
    CostsRoundTrip(costs);
    Base64.RoundTrip(Base64.Std, salt);
    Base64.RoundTrip(Base64.Std, key);
    VerifyAssembled(kdf, password, PrintVersion(), PrintCosts(costs), saltText, keyText, costs, salt, key);
  }

  /**
    The round trip, for any second password: verification recomputes the key from
    exactly the printed costs, salt and length and compares it with the printed key.
  */
  lemma VerifyRecoversAll(kdf: KeyDerivation, password: string, other: string, p: Params, salt: Bytes, hash: string)
    requires |salt| == p.saltLength
    requires HashPassword(kdf, password, p, salt) == Encoded(hash)
    ensures VerifyPassword(kdf, other, hash) ==
            if kdf(other, salt, p.costs, p.keyLength) == kdf(password, salt, p.costs, p.keyLength) then Match
            else Mismatch
  {
    var key := kdf(password, salt, p.costs, p.keyLength);
    assert |key| == p.keyLength;
    ParsesBack(kdf, other, p.costs, salt, key);
    CompareOwn(kdf, other, p, salt, key);
  }

  lemma CompareOwn(kdf: KeyDerivation, password: string, p: Params, salt: Bytes, key: Bytes)
    requires Legal(p.costs, p.keyLength) && |key| == p.keyLength
    ensures Compare(kdf, password, p.costs, salt, key) ==
            if kdf(password, salt, p.costs, p.keyLength) == key then Match else Mismatch
  {
  }

  /** Every password verifies against its own hash whenever hashing it returns at all. */
  lemma HashThenVerify(kdf: KeyDerivation, password: string, p: Params, salt: Bytes)
    requires |salt| == p.saltLength
    ensures HashPassword(kdf, password, p, salt).Encoded? <==> Legal(p.costs, p.keyLength)
    ensures HashPassword(kdf, password, p, salt).Encoded? ==>
              VerifyPassword(kdf, password, HashPassword(kdf, password, p, salt).text) == Match
  {
    if Legal(p.costs, p.keyLength) {
      VerifyRecoversAll(kdf, password, password, p, salt, HashPassword(kdf, password, p, salt).text);
    }
  }

  // What is printed, and what matches

  lemma JoinSix(a: string, b: string, c: string, d: string, e: string)
    ensures Text.Join(["", a, b, c, d, e], '$') == "$" + a + "$" + b + "$" + c + "$" + d + "$" + e
  {
    var de, cde := d + "$" + e, c + "$" + (d + "$" + e);
    var bcde := b + "$" + cde;
    JoinTwo(d, e);
    JoinCons(c, [d, e]);
    JoinCons(b, [c, d, e]);
    JoinCons(a, [b, c, d, e]);
    JoinCons("", [a, b, c, d, e]);
    Regroup("$" + a + "$" + b + "$" + c + "$", d, e);
    Regroup("$" + a + "$" + b + "$", c, de);
    Regroup("$" + a + "$", b, cde);
    Regroup("$", a, bcde);
  }

  lemma Regroup(front: string, x: string, y: string)
    ensures front + (x + "$" + y) == front + x + "$" + y
  {
  }

  lemma JoinTwo(x: string, y: string)
    ensures Text.Join([x, y], '$') == x + "$" + y
  {
    assert [x, y][1..] == [y];
  }

  lemma JoinCons(x: string, rest: seq<string>)
    requires rest != []
    ensures Text.Join([x] + rest, '$') == x + "$" + Text.Join(rest, '$')
  {
    assert ([x] + rest)[1..] == rest;
  }

  lemma DefaultCosts()
    ensures PrintVersion() == "v=19" && PrintCosts(DEFAULT_PARAMS.costs) == "m=65536,t=3,p=2"
  {
    assert Decimal.Print(1) == "1" && Decimal.Print(19) == "19";
    assert Decimal.Print(6) == "6" && Decimal.Print(65) == "65" && Decimal.Print(655) == "655";
    assert Decimal.Print(6553) == "6553" && Decimal.Print(65536) == "65536";
    assert Decimal.Print(3) == "3" && Decimal.Print(2) == "2";
  }

  /** The hash stored with the default costs, letter by letter but for salt and key. */
  lemma DefaultHashText(kdf: KeyDerivation, password: string, salt: Bytes)
    requires |salt| == 16
    ensures HashPassword(kdf, password, DEFAULT_PARAMS, salt)
            == Encoded("$argon2id$v=19$m=65536,t=3,p=2$" + Base64.Encode(Base64.Std, salt) + "$"
                       + Base64.Encode(Base64.Std, kdf(password, salt, Costs(65536, 3, 2), 32)))
  {
    var saltText, keyText := Base64.Encode(Base64.Std, salt), Base64.Encode(Base64.Std, kdf(password, salt, Costs(65536, 3, 2), 32));
    DefaultCosts();
    JoinSix("argon2id", "v=19", "m=65536,t=3,p=2", saltText, keyText);
    Preamble();
  }

  lemma Preamble()
    ensures "$" + "argon2id" + "$" + "v=19" + "$" + "m=65536,t=3,p=2" + "$" == "$argon2id$v=19$m=65536,t=3,p=2$"
  {
  }

  /** These are the parts of a hash of this variant and version. */
  predicate IsHash(parts: seq<string>, costs: Costs, salt: Bytes, key: Bytes) {
    && |parts| == 6 && parts[1] == "argon2id" && ScanVersion(parts[2]) == Some(19) && ScanCosts(parts[3]) == Some(costs)
    && Base64.Decode(Base64.Std, parts[4]) == Some(salt) && Base64.Decode(Base64.Std, parts[5]) == Some(key)
  }

  /** A password matches exactly a hash of this variant and version whose key it derives. */
  lemma MatchesExactly(kdf: KeyDerivation, password: string, hash: string)
    ensures VerifyPassword(kdf, password, hash) == Match <==>
            exists costs: Costs, salt: Bytes, key: Bytes ::
              && IsHash(Text.Split(hash, '$'), costs, salt, key)
              && costs.iterations >= 1 && costs.parallelism >= 1
              && 0 < |key| < 0x1_0000_0000 && kdf(password, salt, costs, |key|) == key
  {
    var parts := Text.Split(hash, '$');
    if |parts| == 6 && parts[1] == "argon2id" && ScanCosts(parts[3]).Some? {
      var salt, key := Base64.Decode(Base64.Std, parts[4]), Base64.Decode(Base64.Std, parts[5]);
      if salt.Some? && key.Some? {
        ComparesExactly(kdf, password, ScanCosts(parts[3]).value, salt.value, key.value);
      }
    }
  }

  lemma ComparesExactly(kdf: KeyDerivation, password: string, costs: Costs, salt: Bytes, key: Bytes)
    ensures Compare(kdf, password, costs, salt, key) == Match <==>
            && costs.iterations >= 1 && costs.parallelism >= 1
            && 0 < |key| < 0x1_0000_0000 && kdf(password, salt, costs, |key|) == key
  {
  }
}
