/** The "ip:port" parser `ipPortToBytes` (util.go:9-34), together with the
    parts of Go's standard library it relies on, written out as functions:
    `net.SplitHostPort`, `net.ParseIP`, `IP.To4` and `strconv.Atoi`.
    Their partners are the formatting functions `FormatIPv4`, `Itoa` and
    `JoinHostPort`; the round trip between the two sides is proved below. */
module Endpoint {
  import opened Wrappers

  /** One byte of an address. */
  type Byte = x: int | 0 <= x < 256

  /** The `[4]byte` value ipPortToBytes returns. */
  type IPv4 = s: seq<Byte> | |s| == 4 witness [0, 0, 0, 0]

  const ZERO: IPv4 := [0, 0, 0, 0]

  /** Bounds of Go's `int` on a 64-bit platform: the values strconv.Atoi accepts. */
  const MIN_INT: int := -0x8000_0000_0000_0000
  const MAX_INT: int := 0x7fff_ffff_ffff_ffff

  predicate InIntRange(n: int) {
    MIN_INT <= n <= MAX_INT
  }

  /** The four errors of ipPortToBytes, in the order it checks for them. */
  datatype AddrError = InvalidFormat | InvalidAddress | NotIPv4 | InvalidPort

  function ErrorText(e: AddrError): string {
    match e
    case InvalidFormat => "invalid IP:port format"
    case InvalidAddress => "invalid IP address"
    case NotIPv4 => "not an IPv4 address"
    case InvalidPort => "invalid port number"
  }

  /** The triple `([4]byte, int, error)` ipPortToBytes returns. */
  datatype Parsed = Parsed(ip: IPv4, port: int, err: Option<AddrError>)

  // ---------------------------------------------------------------------
  // Characters and decimal numbers

  predicate IsDigit(c: char) {
    '0' <= c <= '9'
  }

  predicate IsHexDigit(c: char) {
    IsDigit(c) || 'a' <= c <= 'f' || 'A' <= c <= 'F'
  }

  predicate AllDigits(s: string) {
    forall i :: 0 <= i < |s| ==> IsDigit(s[i])
  }

  function DigitValue(c: char): nat
    requires IsDigit(c)
  {
    c as int - '0' as int
  }

  function Digit(d: nat): (c: char)
    requires d < 10
    ensures IsDigit(c) && DigitValue(c) == d
  {
    ('0' as int + d) as char
  }

  /** The value of a string of decimal digits, most significant first. */
  function ValueOf(s: string): nat
    requires AllDigits(s)
  {
    if s == [] then 0 else 10 * ValueOf(s[..|s| - 1]) + DigitValue(s[|s| - 1])
  }

  /** Shortest decimal text of `n`: digits only, no leading zero. */
  function DecimalString(n: nat): (s: string)
    ensures 0 < |s| && AllDigits(s)
    ensures s[0] == '0' ==> |s| == 1
    ensures n < 10 <==> |s| == 1
  {
    if n < 10 then [Digit(n)] else DecimalString(n / 10) + [Digit(n % 10)]
  }

  /** `strconv.Itoa`: decimal text with a leading '-' for negative values. */
  function Itoa(n: int): string {
    if n < 0 then "-" + DecimalString(-n) else DecimalString(n)
  }

  /** `strconv.Atoi` on a 64-bit platform: an optional sign, then at least one
      decimal digit and nothing else, whose value fits in Go's `int`.
      Leading zeros and a '+' sign are accepted. */
  function Atoi(s: string): Option<int> {
    var signed := 0 < |s| && (s[0] == '-' || s[0] == '+');
    var digits := if signed then s[1..] else s;
    if digits == [] || !AllDigits(digits) then None
    else
      var v: int := if signed && s[0] == '-' then -(ValueOf(digits) as int) else ValueOf(digits);
      if InIntRange(v) then Some(v) else None
  }

  // ---------------------------------------------------------------------
  // Searching and splitting

  function IndexOf(s: string, c: char): (i: int)
    ensures -1 <= i < |s|
    ensures i == -1 ==> c !in s
    ensures 0 <= i ==> s[i] == c && c !in s[..i]
  {
    if s == [] then -1
    else if s[0] == c then 0
    else
      var j := IndexOf(s[1..], c);
      assert s[1..][..j + 1] == s[1..j + 2] by { if 0 <= j { assert j + 2 <= |s|; } }
      if j < 0 then -1 else j + 1
  }

  function LastIndexOf(s: string, c: char): (i: int)
    ensures -1 <= i < |s|
    ensures i == -1 ==> c !in s
    ensures 0 <= i ==> s[i] == c && c !in s[i + 1..]
  {
    if s == [] then -1
    else if s[|s| - 1] == c then |s| - 1
    else
      var i := LastIndexOf(s[..|s| - 1], c);
      assert 0 <= i ==> s[i + 1..] == s[..|s| - 1][i + 1..] + [s[|s| - 1]];
      i
  }

  /** The pieces of `s` between occurrences of `sep` (Go's strings.Split). */
  function Split(s: string, sep: char): (parts: seq<string>)
    ensures 0 < |parts|
    decreases |s|
  {
    var i := IndexOf(s, sep);
    if i < 0 then [s] else [s[..i]] + Split(s[i + 1..], sep)
  }

  /** The inverse of Split: the parts with `sep` between them. */
  function Join(parts: seq<string>, sep: char): string
    requires 0 < |parts|
  {
    if |parts| == 1 then parts[0] else parts[0] + [sep] + Join(parts[1..], sep)
  }

  // ---------------------------------------------------------------------
  // net.SplitHostPort

  /** `net.SplitHostPort`: the port is what follows the last ':'. A host in
      brackets must end just before that colon; an unbracketed host must not
      contain ':'; '[' and ']' may appear nowhere else. */
  function SplitHostPort(hostport: string): Option<(string, string)> {
    var i := LastIndexOf(hostport, ':');
    if i < 0 then None
    else if hostport[0] == '[' then
      var end := IndexOf(hostport, ']');
      if end < 0 || end + 1 != i then None
      else if '[' in hostport[1..] || ']' in hostport[end + 1..] then None
      else Some((hostport[1..end], hostport[i + 1..]))
    else
      var host := hostport[..i];
      if ':' in host || '[' in hostport || ']' in hostport then None
      else Some((host, hostport[i + 1..]))
  }

  /** `net.JoinHostPort` for a host without ':' (no brackets needed). */
  function JoinHostPort(host: string, port: string): string {
    host + ":" + port
  }

  // ---------------------------------------------------------------------
  // net.ParseIP and IP.To4

  /** One field of a dotted quad as Go accepts it: decimal digits, no
      leading zero, at most 255. */
  predicate IsOctetText(f: string) {
    0 < |f| && AllDigits(f) && (f[0] == '0' ==> |f| == 1) && ValueOf(f) <= 255
  }

  /** The IPv4 branch of `net.ParseIP`: exactly four octet fields separated by '.'. */
  function ParseIPv4(s: string): Option<IPv4> {
    var fields := Split(s, '.');
    if |fields| == 4 && IsOctetText(fields[0]) && IsOctetText(fields[1])
       && IsOctetText(fields[2]) && IsOctetText(fields[3])
    then Some([ValueOf(fields[0]), ValueOf(fields[1]), ValueOf(fields[2]), ValueOf(fields[3])])
    else None
  }

  /** IPv6 text, reduced to its alphabet: at least one ':' and nothing but
      hexadecimal digits and colons. */
  predicate IsIPv6Text(s: string) {
    ':' in s && forall i :: 0 <= i < |s| ==> IsHexDigit(s[i]) || s[i] == ':'
  }

  /** A parsed IP: IPv4, or a valid address with no IPv4 form. */
  datatype IP = V4(bytes: IPv4) | V6

  /** `net.ParseIP`: None is Go's nil. */
  function ParseIP(s: string): Option<IP> {
    match ParseIPv4(s)
    case Some(b) => Some(V4(b))
    case None => if IsIPv6Text(s) then Some(V6) else None
  }

  /** `IP.To4`: the four bytes of an IPv4 address, nil for the others. */
  function To4(ip: IP): Option<IPv4> {
    match ip
    case V4(b) => Some(b)
    case V6 => None
  }

  /** The decimal texts of the four bytes, in order. */
  function Octets(ip: IPv4): seq<string> {
    [DecimalString(ip[0]), DecimalString(ip[1]), DecimalString(ip[2]), DecimalString(ip[3])]
  }

  /** Dotted-quad text of four bytes (Go's IP.String for IPv4). */
  function FormatIPv4(ip: IPv4): string {
    Join(Octets(ip), '.')
  }

  // ---------------------------------------------------------------------
  // ipPortToBytes

  /** `ipPortToBytes`: split, parse the host, demand an IPv4 form, parse the
      port. The first failing check decides the error; on every error the
      bytes and the port are zero. The port is not range-checked. */
  function IpPortToBytes(s: string): (r: Parsed)
    ensures r.err.Some? ==> r.ip == ZERO && r.port == 0
    ensures r.err.None? ==> InIntRange(r.port)
    ensures r.err == Some(InvalidFormat) <==> SplitHostPort(s).None?
  {
    match SplitHostPort(s)
    case None => Parsed(ZERO, 0, Some(InvalidFormat))
    case Some((host, portText)) =>
      match ParseIP(host)
      case None => Parsed(ZERO, 0, Some(InvalidAddress))
      case Some(ip) =>
        match To4(ip)
        case None => Parsed(ZERO, 0, Some(NotIPv4))
        case Some(b) =>
          match Atoi(portText)
          case None => Parsed(ZERO, 0, Some(InvalidPort))
          case Some(p) => Parsed(b, p, None)
  }

  // =====================================================================
  // Lemmas: decimal numbers

  lemma ValueOfAppend(s: string, c: char)
    requires AllDigits(s) && IsDigit(c)
    ensures AllDigits(s + [c]) && ValueOf(s + [c]) == 10 * ValueOf(s) + DigitValue(c)
  {
    assert (s + [c])[..|s|] == s;
  }

  /** Reading back the decimal text of `n` gives `n`. */
  lemma {:induction false} ValueOfDecimal(n: nat)
    ensures ValueOf(DecimalString(n)) == n
  {
    if n >= 10 {
      ValueOfDecimal(n / 10);
      ValueOfAppend(DecimalString(n / 10), Digit(n % 10));
    }
  }

  lemma {:induction false} ValueOfPositive(s: string)
    requires 0 < |s| && AllDigits(s) && s[0] != '0'
    ensures 0 < ValueOf(s)
  {
    if |s| > 1 {
      var p := s[..|s| - 1];
      assert p[0] == s[0];
      ValueOfPositive(p);
    }
  }

  /** Decimal text without a leading zero is the text of its own value. */
  lemma {:induction false} DecimalOfValue(s: string)
    requires 0 < |s| && AllDigits(s) && (s[0] == '0' ==> |s| == 1)
    ensures DecimalString(ValueOf(s)) == s
  {
    var p, c := s[..|s| - 1], s[|s| - 1];
    assert s == p + [c];
    if |s| > 1 {
      assert p[0] == s[0];
      ValueOfPositive(p);
      DecimalOfValue(p);
      assert ValueOf(s) / 10 == ValueOf(p) && ValueOf(s) % 10 == DigitValue(c);
    }
  }

  /** Atoi on unsigned digits of value `v` gives `v`, when it is a Go `int`. */
  lemma AtoiUnsigned(d: string, v: nat)
    requires 0 < |d| && AllDigits(d) && ValueOf(d) == v
    ensures Atoi(d) == if InIntRange(v) then Some(v as int) else None
  {
    assert IsDigit(d[0]);
  }

  /** Atoi on '-' and digits of value `v` gives `-v`, when it is a Go `int`. */
  lemma AtoiNegative(d: string, v: nat)
    requires 0 < |d| && AllDigits(d) && ValueOf(d) == v
    ensures Atoi("-" + d) == if InIntRange(-(v as int)) then Some(-(v as int)) else None
  {
    assert ("-" + d)[0] == '-' && ("-" + d)[1..] == d;
  }

  /** strconv.Atoi reads back what strconv.Itoa writes, for every Go `int`. */
  lemma AtoiItoa(n: int)
    requires InIntRange(n)
    ensures Atoi(Itoa(n)) == Some(n)
  {
    if n < 0 {
      ValueOfDecimal(-n);
      AtoiNegative(DecimalString(-n), -n);
    } else {
      ValueOfDecimal(n);
      AtoiUnsigned(DecimalString(n), n);
    }
  }

  /** A decimal numeral beyond Go's `int` range is refused by Atoi. */
  lemma AtoiOutOfRange(n: nat)
    requires MAX_INT < n
    ensures Atoi(DecimalString(n)) == None
  {
    ValueOfDecimal(n);
  }

  // =====================================================================
  // Lemmas: splitting and joining

  lemma IndexOfJoin(x: string, sep: char, y: string)
    requires sep !in x
    ensures IndexOf(x + [sep] + y, sep) == |x|
  {
    var s := x + [sep] + y;
    assert s[|x|] == sep;
  }

  lemma SplitCons(x: string, sep: char, y: string)
    requires sep !in x
    ensures Split(x + [sep] + y, sep) == [x] + Split(y, sep)
  {
    var s := x + [sep] + y;
    IndexOfJoin(x, sep, y);
    assert s[..|x|] == x && s[|x| + 1..] == y;
  }

  lemma SplitAtFirst(s: string, sep: char)
    requires 0 <= IndexOf(s, sep)
    ensures var i := IndexOf(s, sep);
      Split(s, sep) == [s[..i]] + Split(s[i + 1..], sep) && s == s[..i] + [sep] + s[i + 1..]
  {
  }

  lemma JoinCons(x: string, sep: char, tail: seq<string>)
    requires 0 < |tail|
    ensures Join([x] + tail, sep) == x + [sep] + Join(tail, sep)
  {
    assert ([x] + tail)[1..] == tail;
  }

  /** Joining the pieces of a split gives back the original text. */
  lemma {:induction false} JoinSplit(s: string, sep: char)
    ensures Join(Split(s, sep), sep) == s
    decreases |s|
  {
    var i := IndexOf(s, sep);
    if 0 <= i {
      SplitAtFirst(s, sep);
      JoinSplit(s[i + 1..], sep);
      JoinCons(s[..i], sep, Split(s[i + 1..], sep));
    }
  }

  lemma LastIndexOfAt(s: string, c: char, k: int)
    requires 0 <= k < |s| && s[k] == c && c !in s[k + 1..]
    ensures LastIndexOf(s, c) == k
  {
  }

  lemma IndexOfAt(s: string, c: char, k: int)
    requires 0 <= k < |s| && s[k] == c && c !in s[..k]
    ensures IndexOf(s, c) == k
  {
  }

  // =====================================================================
  // Lemmas: host:port splitting

  /** Text that SplitHostPort treats as plain: no ':', '[' or ']'. */
  predicate Plain(s: string) {
    ':' !in s && '[' !in s && ']' !in s
  }

  lemma SplitJoinHostPort(host: string, port: string)
    requires Plain(host) && Plain(port)
    ensures SplitHostPort(JoinHostPort(host, port)) == Some((host, port))
  {
    var s := JoinHostPort(host, port);
    assert s[|host| + 1..] == port && s[..|host|] == host;
    LastIndexOfAt(s, ':', |host|);
    assert s[0] in s;
  }

  /** A host in brackets is split off without its brackets; inside the
      brackets it may contain colons. */
  lemma SplitBracketed(host: string, port: string)
    requires '[' !in host && ']' !in host && Plain(port)
    ensures SplitHostPort("[" + host + "]:" + port) == Some((host, port))
  {
    var s := "[" + host + "]:" + port;
    var e := |host| + 1;
    assert s[e + 2..] == port && s[1..e] == host && s[..e] == "[" + host;
    assert s[e + 1..] == ":" + port;
    LastIndexOfAt(s, ':', e + 1);
    IndexOfAt(s, ']', e);
    assert s[1..] == host + "]:" + port;
  }

  /** Whatever SplitHostPort splits is host and port around a colon, the
      host possibly in brackets. */
  lemma SplitShape(s: string)
    requires SplitHostPort(s).Some?
    ensures var (host, port) := SplitHostPort(s).value;
      s == JoinHostPort(host, port) || s == "[" + host + "]:" + port
  {
    var i := LastIndexOf(s, ':');
    if s[0] == '[' {
      var end := IndexOf(s, ']');
      assert s == [s[0]] + s[1..end] + [s[end]] + [s[i]] + s[i + 1..];
    } else {
      assert s == s[..i] + [s[i]] + s[i + 1..];
    }
  }

  // =====================================================================
  // Lemmas: dotted quads

  lemma DecimalIsPlain(n: nat)
    ensures Plain(DecimalString(n)) && '.' !in DecimalString(n)
  {
    var s := DecimalString(n);
    forall k | 0 <= k < |s| ensures IsDigit(s[k]) { }
  }

  lemma ItoaIsPlain(n: int)
    ensures Plain(Itoa(n))
  {
    if n < 0 {
      DecimalIsPlain(-n);
    } else {
      DecimalIsPlain(n);
    }
  }

  lemma {:induction false} JoinIsPlain(parts: seq<string>)
    requires 0 < |parts| && forall k :: 0 <= k < |parts| ==> Plain(parts[k])
    ensures Plain(Join(parts, '.'))
  {
    if |parts| > 1 {
      JoinIsPlain(parts[1..]);
    }
  }

  lemma FormatIPv4IsPlain(ip: IPv4)
    ensures Plain(FormatIPv4(ip))
  {
    DecimalIsPlain(ip[0]);
    DecimalIsPlain(ip[1]);
    DecimalIsPlain(ip[2]);
    DecimalIsPlain(ip[3]);
    JoinIsPlain([DecimalString(ip[0]), DecimalString(ip[1]), DecimalString(ip[2]), DecimalString(ip[3])]);
  }

  lemma OctetText(b: Byte)
    ensures IsOctetText(DecimalString(b)) && ValueOf(DecimalString(b)) == b
  {
    ValueOfDecimal(b);
  }

  /** Splitting parts that do not contain the separator undoes Join. */
  lemma {:induction false} SplitJoin(parts: seq<string>, sep: char)
    requires 0 < |parts|
    requires forall k :: 0 <= k < |parts| ==> sep !in parts[k]
    ensures Split(Join(parts, sep), sep) == parts
  {
    if |parts| > 1 {
      SplitJoin(parts[1..], sep);
      SplitCons(parts[0], sep, Join(parts[1..], sep));
    } else {
      assert Split(parts[0], sep) == [parts[0]];
    }
  }

  lemma SplitFormatIPv4(ip: IPv4)
    ensures Split(FormatIPv4(ip), '.') == Octets(ip)
  {
    DecimalIsPlain(ip[0]);
    DecimalIsPlain(ip[1]);
    DecimalIsPlain(ip[2]);
    DecimalIsPlain(ip[3]);
    SplitJoin(Octets(ip), '.');
  }

  /** The IPv4 parser reads back the dotted quad of any four bytes. */
  lemma ParseFormatIPv4(ip: IPv4)
    ensures ParseIPv4(FormatIPv4(ip)) == Some(ip)
  {
    var parts := Octets(ip);
    SplitFormatIPv4(ip);
    OctetText(ip[0]);
    OctetText(ip[1]);
    OctetText(ip[2]);
    OctetText(ip[3]);
    assert IsOctetText(parts[0]) && IsOctetText(parts[1]) && IsOctetText(parts[2]) && IsOctetText(parts[3]);
    assert [ValueOf(parts[0]), ValueOf(parts[1]), ValueOf(parts[2]), ValueOf(parts[3])] == ip;
  }

  /** Only the canonical dotted quad of an address parses to it: no other
      spelling (leading zeros, signs, spaces) is accepted. */
  lemma ParsedIPv4IsCanonical(s: string)
    requires ParseIPv4(s).Some?
    ensures FormatIPv4(ParseIPv4(s).value) == s
  {
    var fields := Split(s, '.');
    var ip := ParseIPv4(s).value;
    assert |fields| == 4 && ip == [ValueOf(fields[0]), ValueOf(fields[1]), ValueOf(fields[2]), ValueOf(fields[3])];
    DecimalOfValue(fields[0]);
    DecimalOfValue(fields[1]);
    DecimalOfValue(fields[2]);
    DecimalOfValue(fields[3]);
    assert Octets(ip) == fields;
    JoinSplit(s, '.');
  }

  lemma V6HasNoDot(s: string)
    requires IsIPv6Text(s)
    ensures ParseIPv4(s) == None
  {
    assert '.' !in s by {
      forall k | 0 <= k < |s| ensures s[k] != '.' { assert IsHexDigit(s[k]) || s[k] == ':'; }
    }
    assert Split(s, '.') == [s];
  }

  lemma V6HasNoBrackets(s: string)
    requires IsIPv6Text(s)
    ensures '[' !in s && ']' !in s
  {
    forall k | 0 <= k < |s| ensures s[k] != '[' && s[k] != ']' {
      assert IsHexDigit(s[k]) || s[k] == ':';
    }
  }

  // =====================================================================
  // Lemmas: ipPortToBytes

  /** Round trip: the text "a.b.c.d:p" of any four bytes and any Go `int`
      port parses back to exactly those bytes and that port. Ports 0,
      negative ones and ones above 65535 included: there is no range check. */
  lemma RoundTrip(ip: IPv4, port: int)
    requires InIntRange(port)
    ensures IpPortToBytes(JoinHostPort(FormatIPv4(ip), Itoa(port))) == Parsed(ip, port, None)
  {
    FormatIPv4IsPlain(ip);
    ItoaIsPlain(port);
    SplitJoinHostPort(FormatIPv4(ip), Itoa(port));
    ParseFormatIPv4(ip);
    AtoiItoa(port);
  }

  /** The other direction: whatever parses is the canonical dotted quad of
      the bytes returned, optionally in brackets, a colon, and port text that
      Atoi reads as the port returned. */
  lemma SuccessIsCanonical(s: string)
    requires IpPortToBytes(s).err.None?
    ensures var r := IpPortToBytes(s);
      exists portText :: Atoi(portText) == Some(r.port) &&
        (s == JoinHostPort(FormatIPv4(r.ip), portText) || s == "[" + FormatIPv4(r.ip) + "]:" + portText)
  {
    var r := IpPortToBytes(s);
    var (host, portText) := SplitHostPort(s).value;
    assert ParseIPv4(host) == Some(r.ip);
    ParsedIPv4IsCanonical(host);
    SplitShape(s);
  }

  /** Text without a colon cannot be split: InvalidFormat. */
  lemma NoColonRejected(s: string)
    requires ':' !in s
    ensures IpPortToBytes(s) == Parsed(ZERO, 0, Some(InvalidFormat))
  {
  }

  /** An IPv6 address without brackets has too many colons: InvalidFormat. */
  lemma UnbracketedV6Rejected(host: string, port: string)
    requires IsIPv6Text(host) && Plain(port)
    ensures IpPortToBytes(JoinHostPort(host, port)) == Parsed(ZERO, 0, Some(InvalidFormat))
  {
    var s := JoinHostPort(host, port);
    assert s[|host| + 1..] == port && s[..|host|] == host;
    LastIndexOfAt(s, ':', |host|);
    V6HasNoBrackets(host);
    assert s[0] in host;
  }

  /** A plain host that is not a dotted quad fails as an address, whatever
      the port text is: the address is checked before the port. */
  lemma NonAddressHostRejected(host: string, port: string)
    requires Plain(host) && Plain(port) && ParseIPv4(host).None?
    ensures IpPortToBytes(JoinHostPort(host, port)) == Parsed(ZERO, 0, Some(InvalidAddress))
  {
    SplitJoinHostPort(host, port);
  }

  /** An empty host fails as an address. */
  lemma EmptyHostRejected(port: string)
    requires Plain(port)
    ensures IpPortToBytes(":" + port) == Parsed(ZERO, 0, Some(InvalidAddress))
  {
    assert Split("", '.') == [""];
    NonAddressHostRejected("", port);
    assert JoinHostPort("", port) == ":" + port;
  }

  /** A bracketed IPv6 address is a valid IP with no IPv4 form, whatever the
      port text is: NotIPv4. */
  lemma BracketedV6Rejected(host: string, port: string)
    requires IsIPv6Text(host) && Plain(port)
    ensures IpPortToBytes("[" + host + "]:" + port) == Parsed(ZERO, 0, Some(NotIPv4))
  {
    V6HasNoDot(host);
    V6HasNoBrackets(host);
    SplitBracketed(host, port);
  }

  /** A valid dotted quad with port text Atoi refuses fails as a port. */
  lemma BadPortRejected(ip: IPv4, port: string)
    requires Plain(port) && Atoi(port).None?
    ensures IpPortToBytes(JoinHostPort(FormatIPv4(ip), port)) == Parsed(ZERO, 0, Some(InvalidPort))
  {
    FormatIPv4IsPlain(ip);
    SplitJoinHostPort(FormatIPv4(ip), port);
    ParseFormatIPv4(ip);
  }

  /** Empty port text, and a port beyond Go's `int`, fail as ports. */
  lemma EmptyOrHugePortRejected(ip: IPv4, n: nat)
    requires MAX_INT < n
    ensures IpPortToBytes(FormatIPv4(ip) + ":").err == Some(InvalidPort)
    ensures IpPortToBytes(JoinHostPort(FormatIPv4(ip), DecimalString(n))).err == Some(InvalidPort)
  {
    BadPortRejected(ip, "");
    assert JoinHostPort(FormatIPv4(ip), "") == FormatIPv4(ip) + ":";
    DecimalIsPlain(n);
    AtoiOutOfRange(n);
    BadPortRejected(ip, DecimalString(n));
  }
}
