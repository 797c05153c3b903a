/**
 * The wrapper `prepare_env` installs around Django's `runserver` handler
 * (awx/__init__.py): a missing or empty address:port falls back to the configured
 * default address and port, a bare port number is joined to the default address,
 * anything else is passed on unchanged.
 */
module Runserver {
  import opened Wrappers
  import opened Decimal

  const ADDRPORT := "addrport"

  /**
   * The address:port the original handler receives. `addrport` is `options.get('addrport')`,
   * `None` when the option is missing or `None`.
   */
  function EffectiveAddrport(addrport: Option<string>, defaultAddr: string, defaultPort: int): (r: string)
    // The result is never empty and never a bare number; a value that was rewritten
    // starts with the default address and a colon.
    ensures r != "" && !IsDigitString(r)
    ensures r != addrport.GetOr("") ==> |defaultAddr| < |r| && r[..|defaultAddr| + 1] == defaultAddr + ":"
  {
    if addrport.None? || addrport.value == "" then
      var r := defaultAddr + ":" + FormatInt(defaultPort);
      assert !IsDigit(r[|defaultAddr|]);
      r
    else if IsDigitString(addrport.value) then
      var r := defaultAddr + ":" + FormatNat(Parse(addrport.value));
      assert !IsDigit(r[|defaultAddr|]);
      r
    else
      addrport.value
  }

  /**
   * The default address and port the wrapper uses: the `DEVSERVER_DEFAULT_ADDR` and
   * `DEVSERVER_DEFAULT_PORT` settings, `None` when unset, with `127.0.0.1` and 8000 in their place.
   */
  function DevserverDefaults(addr: Option<string>, port: Option<int>): (r: (string, int))
    ensures addr.Some? ==> r.0 == addr.value
    ensures addr.None? ==> r.0 == "127.0.0.1"
    ensures port.Some? ==> r.1 == port.value
    ensures port.None? ==> r.1 == 8000
  {
    (addr.GetOr("127.0.0.1"), port.GetOr(8000))
  }

  /** With neither setting present, a missing or empty address:port becomes `127.0.0.1:8000`. */
  lemma UnsetDevserverDefaults(addrport: Option<string>)
    requires addrport.None? || addrport.value == ""
    ensures var (addr, port) := DevserverDefaults(None, None);
      EffectiveAddrport(addrport, addr, port) == "127.0.0.1:8000"
  {
    assert Canonical("8000");
    FormatParse("8000");
    assert Parse("8000") == 8000 by {
      assert "8000"[..3] == "800" && "800"[..2] == "80" && "80"[..1] == "8" && "8"[..0] == "";
    }
  }

  /** The keyword options after the wrapper ran: only `addrport` may be rewritten. */
  function HandleOptions(options: map<string, Option<string>>, defaultAddr: string, defaultPort: int)
    : (r: map<string, Option<string>>)
    ensures forall k :: k != ADDRPORT ==> (k in r <==> k in options)
    ensures forall k :: k in options && k != ADDRPORT ==> r[k] == options[k]
    ensures ADDRPORT in r && r[ADDRPORT] == Some(EffectiveAddrport(Get(options, ADDRPORT).GetOr(None), defaultAddr, defaultPort))
  {
    var given := Get(options, ADDRPORT).GetOr(None);
    if given.None? || given.value == "" || IsDigitString(given.value) then
      options[ADDRPORT := Some(EffectiveAddrport(given, defaultAddr, defaultPort))]
    else
      options
  }

  /** With no address:port the server listens on the default address and port, which reads back as that port. */
  lemma AddrportDefaulted(addrport: Option<string>, defaultAddr: string, defaultPort: int)
    requires addrport.None? || addrport.value == ""
    requires defaultPort >= 0
    ensures exists port :: (EffectiveAddrport(addrport, defaultAddr, defaultPort) == defaultAddr + ":" + port &&
      Canonical(port) && Parse(port) == defaultPort)
  {
    ParseFormatNat(defaultPort);
    assert EffectiveAddrport(addrport, defaultAddr, defaultPort) == defaultAddr + ":" + FormatNat(defaultPort);
  }

  /**
   * A bare port is joined to the default address; the port keeps its value but loses its
   * leading zeros, so a port written without them comes through verbatim.
   */
  lemma AddrportBarePort(port: string, defaultAddr: string, defaultPort: int)
    requires IsDigitString(port)
    ensures exists p :: (EffectiveAddrport(Some(port), defaultAddr, defaultPort) == defaultAddr + ":" + p &&
      Canonical(p) && Parse(p) == Parse(port))
    ensures Canonical(port) ==> EffectiveAddrport(Some(port), defaultAddr, defaultPort) == defaultAddr + ":" + port
  {
    ParseFormatNat(Parse(port));
    if Canonical(port) {
      FormatParse(port);
    }
  }

  /** Prefixing a bare port with zeros does not change where the server listens. */
  lemma AddrportLeadingZero(port: string, defaultAddr: string, defaultPort: int)
    requires IsDigitString(port)
    ensures EffectiveAddrport(Some("0" + port), defaultAddr, defaultPort)
         == EffectiveAddrport(Some(port), defaultAddr, defaultPort)
  {
    ParseLeadingZero(port);
  }

  /** An address:port that is neither empty nor a bare number is passed on as given. */
  lemma AddrportPassThrough(addrport: string, defaultAddr: string, defaultPort: int)
    requires addrport != "" && !IsDigitString(addrport)
    ensures EffectiveAddrport(Some(addrport), defaultAddr, defaultPort) == addrport
  {
  }

  /** The result is neither empty nor a bare number, so applying the rule again changes nothing. */
  lemma AddrportIdempotent(addrport: Option<string>, defaultAddr: string, defaultPort: int)
    ensures var once := EffectiveAddrport(addrport, defaultAddr, defaultPort);
      EffectiveAddrport(Some(once), defaultAddr, defaultPort) == once
  {
  }

  /** A bare `9000` becomes `<default address>:9000`; `0.0.0.0:9000` is left alone. */
  lemma AddrportExamples(defaultAddr: string, defaultPort: int)
    ensures EffectiveAddrport(Some("9000"), defaultAddr, defaultPort) == defaultAddr + ":9000"
    ensures EffectiveAddrport(Some("0.0.0.0:9000"), defaultAddr, defaultPort) == "0.0.0.0:9000"
  {
    assert Canonical("9000");
    AddrportBarePort("9000", defaultAddr, defaultPort);
    assert !IsDigit("0.0.0.0:9000"[1]);
  }
}
