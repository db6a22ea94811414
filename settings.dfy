/**
 * The A2A service addresses: one base host and four default ports, and `build_agent_base`,
 * which drops every trailing `/` from the host and appends `:<port>`.
 */
module Settings {
  import opened PyStr

  datatype A2AServiceConfig = A2AServiceConfig(
    baseHost: string,
    analysisPort: int,
    inventoryPort: int,
    orderPort: int,
    consultantPort: int)

  /** The configuration when no environment variable overrides it. */
  const DefaultConfig := A2AServiceConfig("http://localhost", 9101, 9102, 9103, 9104)

  /** `build_agent_base`. */
  function BuildAgentBase(cfg: A2AServiceConfig, port: int): string {
    RStrip(cfg.baseHost, '/') + ":" + IntToString(port)
  }

  /** `rstrip('/')` removes exactly the run of slashes at the end. */
  lemma {:induction false} RStripMeaning(s: string, c: char)
    ensures var r := RStrip(s, c);
      && (r == [] || r[|r| - 1] != c)
      && exists k: nat :: s == r + Chars(c, k)
    decreases |s|
  {
    var r := RStrip(s, c);
    if |s| > 0 && s[|s| - 1] == c {
      RStripMeaning(s[..|s| - 1], c);
      var k: nat :| s[..|s| - 1] == r + Chars(c, k);
      assert s == s[..|s| - 1] + [c];
      assert Chars(c, k) + [c] == Chars(c, k + 1);
      assert s == r + Chars(c, k + 1);
    } else {
      assert s == r + Chars(c, 0);
    }
  }

  /** Slashes added to the end come off again. */
  lemma {:induction false} RStripAppended(s: string, c: char, n: nat)
    ensures RStrip(s + Chars(c, n), c) == RStrip(s, c)
    decreases n
  {
    if n > 0 {
      var t := s + Chars(c, n);
      assert t[..|t| - 1] == s + Chars(c, n - 1);
      RStripAppended(s, c, n - 1);
    } else {
      assert s + Chars(c, 0) == s;
    }
  }

  /**
   * The base is the host without its trailing slashes, a colon and the port, and no slash is
   * left before the colon.
   */
  lemma BaseShape(cfg: A2AServiceConfig, port: int)
    ensures var h := RStrip(cfg.baseHost, '/');
      && BuildAgentBase(cfg, port) == h + ":" + IntToString(port)
      && (h == [] || h[|h| - 1] != '/')
      && exists k: nat :: cfg.baseHost == h + Chars('/', k)
  {
    RStripMeaning(cfg.baseHost, '/');
  }

  /** Hosts that differ only in trailing slashes give the same base. */
  lemma TrailingSlashesIgnored(cfg: A2AServiceConfig, n: nat, port: int)
    ensures BuildAgentBase(cfg.(baseHost := cfg.baseHost + Chars('/', n)), port) == BuildAgentBase(cfg, port)
  {
    RStripAppended(cfg.baseHost, '/', n);
  }

  /** A host without a trailing slash is the base's prefix, unchanged. */
  lemma HostKept(cfg: A2AServiceConfig, port: int)
    requires cfg.baseHost == [] || cfg.baseHost[|cfg.baseHost| - 1] != '/'
    ensures StartsWith(BuildAgentBase(cfg, port), cfg.baseHost + ":")
  {
    ConcatStartsWith(cfg.baseHost + ":", IntToString(port));
  }

  lemma {:induction false} NatToStringLength(n: nat)
    ensures |NatToString(n)| >= 1
    ensures n >= 10 ==> |NatToString(n)| >= 2
    decreases n
  {
    if n >= 10 {
      NatToStringLength(n / 10);
    }
  }

  /** Distinct numbers are written differently. */
  lemma {:induction false} NatToStringInjective(a: nat, b: nat)
    requires NatToString(a) == NatToString(b)
    ensures a == b
    decreases a
  {
    NatToStringLength(a);
    NatToStringLength(b);
    var s := NatToString(a);
    if a < 10 && b < 10 {
      assert "0123456789"[a] == "0123456789"[b];
    } else if a >= 10 && b >= 10 {
      assert s[..|s| - 1] == NatToString(a / 10) && s[..|s| - 1] == NatToString(b / 10);
      NatToStringInjective(a / 10, b / 10);
      assert "0123456789"[a % 10] == "0123456789"[b % 10];
    }
  }

  /** Distinct ports give distinct bases, so each service has an address of its own. */
  lemma BaseInjective(cfg: A2AServiceConfig, p: nat, q: nat)
    requires BuildAgentBase(cfg, p) == BuildAgentBase(cfg, q)
    ensures p == q
  {
    var h := RStrip(cfg.baseHost, '/') + ":";
    assert BuildAgentBase(cfg, p) == h + NatToString(p);
    assert BuildAgentBase(cfg, q) == h + NatToString(q);
    assert NatToString(p) == BuildAgentBase(cfg, p)[|h|..];
    assert NatToString(q) == BuildAgentBase(cfg, q)[|h|..];
    NatToStringInjective(p, q);
  }

  /** The four default ports are pairwise distinct. */
  lemma DefaultPortsDistinct()
    ensures var c := DefaultConfig;
      && c.analysisPort != c.inventoryPort && c.analysisPort != c.orderPort && c.analysisPort != c.consultantPort
      && c.inventoryPort != c.orderPort && c.inventoryPort != c.consultantPort && c.orderPort != c.consultantPort
  {
  }
}
