/** The `<server[:port]>` command-line argument (irc-secretary.py lines 157-166):
    the host is the text before the first `:`; the port is the rest read with
    Python 2's `int()`, or 6667 when there is no `:`. */
module ServerArg {
  import opened Text

  const DefaultPort := 6667

  datatype Endpoint = Endpoint(host: string, port: int)

  /** `ErroneousPort` is the `ValueError` branch that ends the program. */
  datatype ParseResult = Parsed(endpoint: Endpoint) | ErroneousPort

  predicate IsDigit(c: char)
  {
    '0' <= c <= '9'
  }

  predicate IsDigits(ds: string)
  {
    |ds| > 0 && forall i :: 0 <= i < |ds| ==> IsDigit(ds[i])
  }

  function DigitValue(c: char): nat
    requires IsDigit(c)
  {
    (c as int) - ('0' as int)
  }

  /** The decimal value of a run of ASCII digits, most significant first. */
  function DigitsValue(ds: string): nat
    requires forall i :: 0 <= i < |ds| ==> IsDigit(ds[i])
  {
    if ds == [] then 0
    else 10 * DigitsValue(ds[..|ds| - 1]) + DigitValue(ds[|ds| - 1])
  }

  /** Python 2's `int(s)` in base 10: surrounding whitespace, an optional sign,
      more whitespace after the sign (CPython's `PyOS_strtoul` skips it), and
      at least one digit; `None` where Python raises `ValueError`. There is no
      range check. */
  function PyInt(s: string): Option<int>
  {
    var t := Strip(s);
    if |t| > 0 && (t[0] == '-' || t[0] == '+') then
      var ds := DropSpaces(t[1..]);
      if IsDigits(ds) then
        var v: int := DigitsValue(ds);
        Some(if t[0] == '-' then -v else v)
      else None
    else if IsDigits(t) then Some(DigitsValue(t))
    else None
  }

  /** `sys.argv[1].split(":", 1)` and the port conversion that follows. */
  function ParseServer(arg: string): (r: ParseResult)
    ensures r.Parsed? ==> r.endpoint.host <= arg && ':' !in r.endpoint.host
    ensures r.Parsed? && r.endpoint.host != arg ==> arg[|r.endpoint.host|] == ':'
  {
    var i := IndexOf(arg, ':');
    if i == |arg| then Parsed(Endpoint(arg, DefaultPort))
    else
      match PyInt(arg[i + 1..])
      case Some(p) => Parsed(Endpoint(arg[..i], p))
      case None => ErroneousPort
  }

  /** Decimal rendering of a natural number (Python's `str(n)`). */
  function NatToString(n: nat): string
  {
    var d := ['0' + ((n % 10) as char)];
    if n < 10 then d else NatToString(n / 10) + d
  }

  /** Reading back a rendered number gives the number. */
  lemma {:induction false} NatToStringDigits(n: nat)
    ensures IsDigits(NatToString(n))
    ensures DigitsValue(NatToString(n)) == n
  {
    var s := NatToString(n);
    if n >= 10 {
      NatToStringDigits(n / 10);
      assert s[..|s| - 1] == NatToString(n / 10);
    }
  }

  /** Without a `:`, the whole argument is the host and the port is 6667. */
  lemma HostOnly(host: string)
    requires ':' !in host
    ensures ParseServer(host) == Parsed(Endpoint(host, DefaultPort))
  {
  }

  /** `host:port` with a decimal port parses to that host and port. */
  lemma HostAndPort(host: string, port: nat)
    requires ':' !in host
    ensures ParseServer(host + ":" + NatToString(port)) == Parsed(Endpoint(host, port))
  {
    var digits := NatToString(port);
    var arg := host + ":" + digits;
    IndexOfAfter(host, ':', digits);
    assert arg[..|host|] == host;
    assert arg[|host| + 1..] == digits;
    NatToStringDigits(port);
    PyIntOfDigits(digits);
  }

  /** A bare run of digits is read as its decimal value. */
  lemma PyIntOfDigits(ds: string)
    requires IsDigits(ds)
    ensures PyInt(ds) == Some(DigitsValue(ds))
  {
    assert !IsSpace(ds[0]) && !IsSpace(ds[|ds| - 1]);
    assert DropSpaces(ds) == ds;
    assert Strip(ds) == ds;
  }

  /** A port text that holds no digit at all is refused. */
  lemma PortWithoutDigits(host: string, text: string)
    requires ':' !in host
    requires forall c :: c in text ==> !IsDigit(c)
    ensures ParseServer(host + ":" + text) == ErroneousPort
  {
    var arg := host + ":" + text;
    IndexOfAfter(host, ':', text);
    assert arg[|host| + 1..] == text;
    var t := Strip(text);
    StripKeepsChars(text);
    if |t| > 0 {
      assert t[0] in text;
      if t[0] == '-' || t[0] == '+' {
        var ds := DropSpaces(t[1..]);
        DropSpacesKeepsChars(t[1..]);
        assert forall c :: c in t[1..] ==> c in t;
        if |ds| > 0 {
          assert ds[0] in text;
        }
      }
    }
  }

  /** `int()` of a signed number: whitespace around it, and any whitespace
      between the sign and the digits, is skipped, so `int(" + \t80 ")` is 80
      and `int("- 5")` is -5. */
  lemma PyIntSigned(lead: string, sign: char, sp: string, ds: string, trail: string)
    requires sign == '-' || sign == '+'
    requires IsSpaces(lead) && IsSpaces(sp) && IsSpaces(trail) && IsDigits(ds)
    ensures PyInt(lead + [sign] + sp + ds + trail) ==
      Some(if sign == '-' then -(DigitsValue(ds) as int) else DigitsValue(ds))
  {
    var x := [sign] + sp + ds;
    assert lead + [sign] + sp + ds + trail == lead + x + trail;
    assert x[|x| - 1] == ds[|ds| - 1];
    PyIntStrips(lead, x, trail);
    PyIntSignThenSpaces(sign, sp, ds);
  }

  /** Whitespace around the text does not change what `int()` reads. */
  lemma PyIntStrips(lead: string, x: string, trail: string)
    requires IsSpaces(lead) && IsSpaces(trail)
    requires x != [] && !IsSpace(x[0]) && !IsSpace(x[|x| - 1])
    ensures PyInt(lead + x + trail) == PyInt(x)
  {
    StripSpaces(lead, x, trail);
    StripSpaces("", x, "");
    assert "" + x + "" == x;
  }

  /** A sign, whitespace, then digits. */
  lemma PyIntSignThenSpaces(sign: char, sp: string, ds: string)
    requires sign == '-' || sign == '+'
    requires IsSpaces(sp) && IsDigits(ds)
    ensures PyInt([sign] + sp + ds) ==
      Some(if sign == '-' then -(DigitsValue(ds) as int) else DigitsValue(ds))
  {
    var x := [sign] + (sp + ds);
    assert [sign] + sp + ds == x;
    assert Strip(x) == x by {
      assert x[|x| - 1] == ds[|ds| - 1];
      assert DropSpaces(x) == x;
    }
    assert DropSpaces(x[1..]) == ds by {
      assert x[1..] == sp + ds;
      DropSpacesOfSpaces(sp, ds);
    }
    SignedDigits(x, ds);
  }

  /** The sign branch of `int()` on a text that is already stripped. */
  lemma SignedDigits(x: string, ds: string)
    requires |x| > 0 && (x[0] == '-' || x[0] == '+') && Strip(x) == x
    requires DropSpaces(x[1..]) == ds && IsDigits(ds)
    ensures PyInt(x) == Some(if x[0] == '-' then -(DigitsValue(ds) as int) else DigitsValue(ds))
  {
  }

  /** `int()` of an unsigned number with whitespace around it. */
  lemma PyIntUnsigned(lead: string, ds: string, trail: string)
    requires IsSpaces(lead) && IsSpaces(trail) && IsDigits(ds)
    ensures PyInt(lead + ds + trail) == Some(DigitsValue(ds))
  {
    StripSpaces(lead, ds, trail);
  }

  /** After the first `:`, the rest of the argument is the port text. */
  lemma HostThenPortText(host: string, text: string)
    requires ':' !in host
    ensures ParseServer(host + ":" + text) ==
      match PyInt(text)
      case Some(p) => Parsed(Endpoint(host, p))
      case None => ErroneousPort
  {
    var arg := host + ":" + text;
    IndexOfAfter(host, ':', text);
    assert arg[..|host|] == host;
    assert arg[|host| + 1..] == text;
  }

  /** So `host:- 5` names port -5. */
  lemma SpaceAfterSign(host: string, port: nat)
    requires ':' !in host
    ensures ParseServer(host + ":- " + NatToString(port)) == Parsed(Endpoint(host, -(port as int)))
  {
    var digits := NatToString(port);
    NatToStringDigits(port);
    MinusBlankDigits(digits);
    assert host + ":- " + digits == host + ":" + ("- " + digits);
    HostThenPortText(host, "- " + digits);
  }

  /** The port text `- <digits>`. */
  lemma MinusBlankDigits(ds: string)
    requires IsDigits(ds)
    ensures PyInt("- " + ds) == Some(-(DigitsValue(ds) as int))
  {
    assert "- " + ds == ['-'] + " " + ds;
    PyIntSignThenSpaces('-', " ", ds);
  }
}
