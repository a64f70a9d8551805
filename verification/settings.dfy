/** The application settings and the database connection string built from
    them. Loading the settings from the environment and the `.env` file is not
    modelled: the fields are plain inputs. */
module Settings {
  import opened Wrappers

  datatype AppMode = Development | Production

  /** The settings fields; the port is an `int`, the rest are strings. */
  datatype Settings = Settings(
    port: int,
    password: string,
    user: string,
    db: string,
    host: string,
    appMode: AppMode)

  /** The driver scheme every connection string starts with. */
  const Scheme: string := "postgresql+asyncpg://"

  predicate IsDigit(c: char) {
    '0' <= c <= '9'
  }

  predicate AllDigits(s: string) {
    forall i :: 0 <= i < |s| ==> IsDigit(s[i])
  }

  /** The character of decimal digit `d`. */
  function DigitChar(d: nat): (c: char)
    requires d < 10
    ensures IsDigit(c)
    ensures c as int - '0' as int == d
  {
    (d + '0' as int) as char
  }

  /** The decimal digits of `n`, most significant first, without leading
      zeros. */
  function NatDigits(n: nat): (s: string)
    ensures |s| >= 1 && AllDigits(s)
    ensures s[0] == '0' ==> n == 0 && |s| == 1
    decreases n
  {
    if n < 10 then [DigitChar(n)] else NatDigits(n / 10) + [DigitChar(n % 10)]
  }

  /** An integer as an f-string renders it: its digits, preceded by a minus
      sign when it is negative. */
  function Decimal(n: int): (s: string)
    ensures |s| >= 1
    ensures s[0] == '-' <==> n < 0
    ensures forall i :: 0 <= i < |s| ==> IsDigit(s[i]) || (i == 0 && s[i] == '-')
  {
    if n < 0 then "-" + NatDigits(-n) else NatDigits(n)
  }

  /** The value of a string of decimal digits, read left to right. */
  function DigitsValue(s: string): nat
    requires AllDigits(s)
  {
    if s == [] then 0
    else
      assert IsDigit(s[|s| - 1]);
      DigitsValue(s[..|s| - 1]) * 10 + (s[|s| - 1] as int - '0' as int)
  }

  /** Reads an optionally minus-signed, non-empty run of decimal digits. */
  function ParseInt(s: string): Option<int>
  {
    if |s| >= 2 && s[0] == '-' && AllDigits(s[1..]) then
      Some(0 - DigitsValue(s[1..]))
    else if |s| >= 1 && AllDigits(s) then
      Some(DigitsValue(s))
    else None
  }

  lemma {:induction false} NatDigitsValue(n: nat)
    ensures DigitsValue(NatDigits(n)) == n
    decreases n
  {
    if n >= 10 {
      var s := NatDigits(n);
      assert s[..|s| - 1] == NatDigits(n / 10);
      NatDigitsValue(n / 10);
    }
  }

  /** An unsigned or a minus-signed run of digits reads as its value. */
  lemma ParseIntDigits(d: string)
    requires |d| >= 1 && AllDigits(d)
    ensures ParseInt(d) == Some(DigitsValue(d))
    ensures ParseInt("-" + d) == Some(0 - DigitsValue(d))
  {
  }

  /** The rendering of the port reads back as the port. */
  lemma {:induction false} DecimalRoundTrip(n: int)
    ensures ParseInt(Decimal(n)) == Some(n)
  {
    if n < 0 {
      assert Decimal(n) == "-" + NatDigits(-n);
      ParseIntDigits(NatDigits(-n));
      NatDigitsValue(-n);
    } else {
      ParseIntDigits(NatDigits(n));
      NatDigitsValue(n);
    }
  }

  /** `get_database_url`: the scheme, then user ":" password "@" host ":"
      port "/" database, with the port in decimal. Only reads the settings. */
  function DatabaseUrl(s: Settings): (url: string)
    ensures |url| > |Scheme| && url[..|Scheme|] == Scheme
    ensures |url| >= |s.db| + 1 && url[|url| - |s.db| - 1..] == "/" + s.db
  {
    Scheme + s.user + ":" + s.password + "@" + s.host + ":" + Decimal(s.port) + "/" + s.db
  }

  /** `s` cut at the first occurrence of `c`, or `None` when `c` does not
      occur. */
  function SplitAt(s: string, c: char): (r: Option<(string, string)>)
    ensures r.Some? ==> c !in r.value.0 && s == r.value.0 + [c] + r.value.1
    ensures r.None? ==> c !in s
  {
    if s == [] then None
    else if s[0] == c then Some(([], s[1..]))
    else
      match SplitAt(s[1..], c)
      case None => None
      case Some((a, b)) => Some(([s[0]] + a, b))
  }

  lemma {:induction false} SplitAtFirst(a: string, b: string, c: char)
    requires c !in a
    ensures SplitAt(a + [c] + b, c) == Some((a, b))
  {
    if a != [] {
      var s := a + [c] + b;
      assert s[0] == a[0] != c;
      assert s[1..] == a[1..] + [c] + b;
      SplitAtFirst(a[1..], b, c);
      assert [a[0]] + a[1..] == a;
    }
  }

  /** The fields of a connection string. */
  datatype UrlParts = UrlParts(user: string, password: string, host: string, port: int, db: string)

  /** Reads a connection string back into its fields: after the scheme, the
      user runs to the first ':', the password to the next '@', the host to
      the next ':', the port to the next '/', and the database is the rest. */
  function ParseUrl(url: string): Option<UrlParts>
  {
    if |url| < |Scheme| || url[..|Scheme|] != Scheme then None
    else
      match SplitAt(url[|Scheme|..], ':')
      case None => None
      case Some((user, afterUser)) =>
        match SplitAt(afterUser, '@')
        case None => None
        case Some((password, afterPassword)) =>
          match SplitAt(afterPassword, ':')
          case None => None
          case Some((host, afterHost)) =>
            match SplitAt(afterHost, '/')
            case None => None
            case Some((portText, db)) =>
              match ParseInt(portText)
              case None => None
              case Some(port) => Some(UrlParts(user, password, host, port, db))
  }

  /** Every field can be read back from the connection string, as long as the
      user and the host hold no ':' and the password holds no '@' (nothing is
      escaped); the database name may hold anything. */
  lemma DatabaseUrlRoundTrip(s: Settings)
    requires ':' !in s.user && '@' !in s.password && ':' !in s.host
    ensures ParseUrl(DatabaseUrl(s)) == Some(UrlParts(s.user, s.password, s.host, s.port, s.db))
  {
    var portText := Decimal(s.port);
    var afterHost := portText + ['/'] + s.db;
    var afterPassword := s.host + [':'] + afterHost;
    var afterUser := s.password + ['@'] + afterPassword;
    var rest := s.user + [':'] + afterUser;
    var url := DatabaseUrl(s);
    assert url == Scheme + rest;
    assert url[|Scheme|..] == rest;
    SplitAtFirst(s.user, afterUser, ':');
    SplitAtFirst(s.password, afterPassword, '@');
    SplitAtFirst(s.host, afterHost, ':');
    assert '/' !in portText by {
      forall i | 0 <= i < |portText| ensures portText[i] != '/' {
      }
    }
    SplitAtFirst(portText, s.db, '/');
    DecimalRoundTrip(s.port);
  }
}
