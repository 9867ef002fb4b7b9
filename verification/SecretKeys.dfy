// The data of Secrets: what is handed to the consumer of a database, and what a seed brings.
module SecretKeys {
  import opened Common

  datatype DbInfo = DbInfo(database: string, hostName: string, userName: string, password: string, port: int)

  datatype Field = Username | Password | Database | Host | Port

  // The alphabet of labels in section 2.3.1 of RFC 1035, lower case.
  predicate NameChar(c: char) {
    'a' <= c <= 'z' || '0' <= c <= '9' || c == '-'
  }

  predicate ServiceName(name: string) {
    forall i :: 0 <= i < |name| ==> NameChar(name[i])
  }

  // strings.ReplaceAll(name, "-", "_") and strings.ToUpper, character by character.
  function KeyChar(c: char): char {
    if c == '-' then '_'
    else if 'a' <= c <= 'z' then (c as int - 'a' as int + 'A' as int) as char
    else c
  }

  function Prefix(name: string): (r: string)
    ensures |r| == |name|
    ensures forall i :: 0 <= i < |name| ==> r[i] == KeyChar(name[i])
  {
    if name == "" then "" else [KeyChar(name[0])] + Prefix(name[1..])
  }

  function Suffix(f: Field): string {
    match f
    case Username => "USERNAME"
    case Password => "PASSWORD"
    case Database => "DATABASE"
    case Host => "HOST"
    case Port => "PORT"
  }

  function DataKey(name: string, f: Field): string {
    Prefix(name) + "_" + Suffix(f)
  }

  /** Numbers as text */

  // The range of Go's int, on the platforms the controller is built for.
  predicate IsInt(n: int) {
    -0x8000_0000_0000_0000 <= n <= 0x7FFF_FFFF_FFFF_FFFF
  }

  predicate AllDigits(s: string) {
    s != "" && forall i :: 0 <= i < |s| ==> '0' <= s[i] <= '9'
  }

  function Digits(n: nat): string {
    if n < 10 then [('0' as int + n) as char] else Digits(n / 10) + Digits(n % 10)
  }

  function Decimal(n: int): string {
    if n < 0 then "-" + Digits(-n) else Digits(n)
  }

  function ParseDigits(s: string): (r: Option<nat>)
    ensures r.Some? <==> AllDigits(s)
  {
    if s == "" then None
    else
      var c := s[|s| - 1];
      if !('0' <= c <= '9') then None
      else if |s| == 1 then Some(c as int - '0' as int)
      else
        match ParseDigits(s[..|s| - 1])
        case None => None
        case Some(n) => Some(10 * n + (c as int - '0' as int))
  }

  // strconv.Atoi: decimal digits after an optional sign, in the range of int.
  function Atoi(s: string): (r: Option<int>)
    ensures r.Some? ==> IsInt(r.value)
    ensures r.Some? ==> AllDigits(s) || (|s| > 0 && s[0] in "+-" && AllDigits(s[1..]))
  {
    var signed := |s| > 0 && (s[0] == '-' || s[0] == '+');
    match ParseDigits(if signed then s[1..] else s)
    case None => None
    case Some(n) =>
      var z: int := if signed && s[0] == '-' then 0 - n else n;
      if IsInt(z) then Some(z) else None
  }

  lemma {:induction false} ReadsDigits(n: nat)
    ensures ParseDigits(Digits(n)) == Some(n) && AllDigits(Digits(n))
  {
    if n < 10 {
    } else {
      ReadsDigits(n / 10);
      var s := Digits(n);
      assert s[..|s| - 1] == Digits(n / 10) && s[|s| - 1] == Digits(n % 10)[0];
    }
  }

  lemma AtoiUnsigned(s: string, n: nat)
    requires AllDigits(s) && ParseDigits(s) == Some(n)
    ensures Atoi(s) == if IsInt(n) then Some(n) else None
  {
    assert '0' <= s[0] <= '9';
  }

  lemma AtoiSigned(sign: char, s: string, n: nat)
    requires (sign == '-' || sign == '+') && ParseDigits(s) == Some(n)
    ensures var z: int := if sign == '-' then 0 - n else n; Atoi([sign] + s) == if IsInt(z) then Some(z) else None
  {
    assert ([sign] + s)[1..] == s;
  }

  // What is written in decimal reads back as the same number.
  lemma AtoiDecimal(n: int)
    ensures Atoi(Decimal(n)) == if IsInt(n) then Some(n) else None
  {
    if n < 0 {
      ReadsDigits(-n);
      AtoiSigned('-', Digits(-n), -n);
    } else {
      ReadsDigits(n);
      AtoiUnsigned(Digits(n), n);
    }
  }

  // With a plus sign as well.
  lemma AtoiPlus(n: nat)
    ensures Atoi("+" + Decimal(n)) == if IsInt(n) then Some(n) else None
  {
    ReadsDigits(n);
    AtoiSigned('+', Digits(n), n);
  }

  /** The seed */

  function DbInfoFromSeed(data: map<string, string>): (r: Option<DbInfo>)
    ensures r.Some? <==>
      {"database", "hostname", "username", "password", "port"} <= data.Keys && Atoi(data["port"]).Some?
    ensures r.Some? ==>
      && r.value.database == data["database"] && r.value.hostName == data["hostname"]
      && r.value.userName == data["username"] && r.value.password == data["password"]
      && Atoi(data["port"]) == Some(r.value.port)
  {
    if "database" in data && "hostname" in data && "username" in data && "password" in data && "port" in data then
      match Atoi(data["port"])
      case None => None
      case Some(port) => Some(DbInfo(data["database"], data["hostname"], data["username"], data["password"], port))
    else None
  }

  /** What is handed out */

  function GetSecretData(info: DbInfo, name: string, serviceName: string): map<string, string> {
    map[
      DataKey(name, Username) := info.userName,
      DataKey(name, Password) := info.password,
      DataKey(name, Database) := info.database,
      DataKey(name, Host) := serviceName,
      DataKey(name, Port) := Decimal(info.port)
    ]
  }

  lemma PrefixInjective(a: string, b: string)
    requires ServiceName(a) && ServiceName(b) && Prefix(a) == Prefix(b)
    ensures a == b
  {
  }

  // The last '_' of a key separates its two parts.
  lemma SplitAtLast(p: string, f: string, q: string, g: string)
    requires '_' !in f && '_' !in g && p + "_" + f == q + "_" + g
    ensures p == q && f == g
  {
    var s := p + "_" + f;
    var i, j := |p|, |q|;
    assert s[i] == '_' && s[j] == '_';
    assert forall x :: i < x < |s| ==> s[x] == f[x - i - 1];
    assert forall x :: j < x < |s| ==> s[x] == g[x - j - 1];
    assert i == j;
    assert p == s[..i] && q == s[..j];
    assert f == s[i + 1..] && g == s[j + 1..];
  }

  lemma NoUnderscore(f: Field)
    ensures '_' !in Suffix(f)
  {
  }

  lemma SuffixInjective(f: Field, g: Field)
    requires Suffix(f) == Suffix(g)
    ensures f == g
  {
  }

  // Name and field can both be read back from a key.
  lemma DataKeyInjective(a: string, f: Field, b: string, g: Field)
    requires ServiceName(a) && ServiceName(b) && DataKey(a, f) == DataKey(b, g)
    ensures a == b && f == g
  {
    NoUnderscore(f);
    NoUnderscore(g);
    SplitAtLast(Prefix(a), Suffix(f), Prefix(b), Suffix(g));
    PrefixInjective(a, b);
    SuffixInjective(f, g);
  }

  // u is name in upper case, with '_' for '-'.
  predicate UpperCase(name: string, u: string) {
    && |u| == |name|
    && forall i :: 0 <= i < |name| ==>
         && (name[i] == '-' ==> u[i] == '_')
         && ('a' <= name[i] <= 'z' ==> u[i] as int == name[i] as int - 32)
         && (name[i] != '-' && !('a' <= name[i] <= 'z') ==> u[i] == name[i])
  }

  // The entries of a Secret, key by key; the port reads back as the number it is.
  predicate Says(m: map<string, string>, u: string, serviceName: string, info: DbInfo) {
    && m.Keys == {u + "_USERNAME", u + "_PASSWORD", u + "_DATABASE", u + "_HOST", u + "_PORT"}
    && m[u + "_USERNAME"] == info.userName && m[u + "_PASSWORD"] == info.password
    && m[u + "_DATABASE"] == info.database && m[u + "_HOST"] == serviceName
    && (IsInt(info.port) ==> Atoi(m[u + "_PORT"]) == Some(info.port))
  }

  // Every Secret has five entries, one per field, whatever the name.
  lemma FiveKeys(info: DbInfo, name: string, serviceName: string, u: string)
    requires UpperCase(name, u)
    ensures var m := GetSecretData(info, name, serviceName); |m| == 5 && Says(m, u, serviceName, info)
  {
    AtoiDecimal(info.port);
    KeysAre(name, u);
    forall f, g | f != g ensures DataKey(name, f) != DataKey(name, g) {
      DistinctFields(name, f, g);
    }
    FiveElements(DataKey(name, Username), DataKey(name, Password), DataKey(name, Database),
                 DataKey(name, Host), DataKey(name, Port));
    var m := GetSecretData(info, name, serviceName);
    assert m.Keys == {DataKey(name, Username), DataKey(name, Password), DataKey(name, Database),
                      DataKey(name, Host), DataKey(name, Port)};
    assert |m| == |m.Keys|;
  }

  lemma KeysAre(name: string, u: string)
    requires UpperCase(name, u)
    ensures DataKey(name, Username) == u + "_USERNAME" && DataKey(name, Password) == u + "_PASSWORD"
    ensures DataKey(name, Database) == u + "_DATABASE" && DataKey(name, Host) == u + "_HOST"
    ensures DataKey(name, Port) == u + "_PORT"
  {
    assert Prefix(name) == u;
    assert u + "_" + "USERNAME" == u + "_USERNAME" && u + "_" + "PASSWORD" == u + "_PASSWORD";
    assert u + "_" + "DATABASE" == u + "_DATABASE" && u + "_" + "HOST" == u + "_HOST";
    assert u + "_" + "PORT" == u + "_PORT";
  }

  lemma UpperCaseExists(name: string)
    ensures UpperCase(name, Prefix(name))
  {
  }

  lemma DistinctFields(name: string, f: Field, g: Field)
    requires f != g
    ensures DataKey(name, f) != DataKey(name, g)
  {
    if DataKey(name, f) == DataKey(name, g) {
      NoUnderscore(f);
      NoUnderscore(g);
      SplitAtLast(Prefix(name), Suffix(f), Prefix(name), Suffix(g));
      SuffixInjective(f, g);
    }
  }

  lemma FiveElements(a: string, b: string, c: string, d: string, e: string)
    requires a != b && a != c && a != d && a != e && b != c && b != d && b != e && c != d && c != e && d != e
    ensures |{a, b, c, d, e}| == 5
  {
  }

  // Secrets of distinct service names share no key.
  lemma DisjointSecrets(i: DbInfo, a: string, s: string, j: DbInfo, b: string, t: string)
    requires ServiceName(a) && ServiceName(b) && a != b
    ensures GetSecretData(i, a, s).Keys !! GetSecretData(j, b, t).Keys
  {
    forall k | k in GetSecretData(i, a, s) ensures k !in GetSecretData(j, b, t) {
      var f := KeyOf(i, a, s, k);
      if k in GetSecretData(j, b, t) {
        var g := KeyOf(j, b, t, k);
        DataKeyInjective(a, f, b, g);
      }
    }
  }

  lemma KeyOf(info: DbInfo, name: string, serviceName: string, k: string) returns (f: Field)
    requires k in GetSecretData(info, name, serviceName)
    ensures k == DataKey(name, f)
  {
    f := if k == DataKey(name, Username) then Username
         else if k == DataKey(name, Password) then Password
         else if k == DataKey(name, Database) then Database
         else if k == DataKey(name, Host) then Host
         else Port;
  }

  // Outside that alphabet distinct names can collide.
  lemma UnderscoreCollides()
    ensures DataKey("a-b", Host) == DataKey("a_b", Host) && "a-b" != "a_b"
  {
  }
}
