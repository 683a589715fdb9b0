/**
 * The positional record `Proxy(Host, Port, Username = null, Password = null,
 * Protocols = Protocols.None)`: an immutable value with structural equality
 * and no validation of any field.
 */
module Proxies {
  import opened Wrappers
  import opened ProtocolFlags

  /** C#'s `int`: a 32-bit two's-complement integer. */
  newtype int32 = x: int | -0x8000_0000 <= x < 0x8000_0000

  /**
   * One proxy endpoint. `Host` is declared non-nullable, but nullable
   * annotations are not enforced at run time, so a null host (`None`) can be
   * stored like any other; a missing username or password is `None` too.
   */
  datatype Proxy = Proxy(
    host: Option<string>,
    port: int32,
    username: Option<string> := Option.None,
    password: Option<string> := Option.None,
    protocols: Protocols := ProtocolFlags.None)

  /** The primary constructor stores each of its five arguments in the property of the same name. */
  lemma ConstructionStoresArguments(host: Option<string>, port: int32, username: Option<string>,
                                    password: Option<string>, protocols: Protocols)
    ensures var p := Proxy(host, port, username, password, protocols);
      p.host == host && p.port == port && p.username == username
      && p.password == password && p.protocols == protocols
  {
  }

  /** Omitted credentials are absent and omitted protocols are `None`. */
  lemma DefaultsWhenOmitted(host: Option<string>, port: int32)
    ensures Proxy(host, port).username == Option.None
    ensures Proxy(host, port).password == Option.None
    ensures Proxy(host, port).protocols == ProtocolFlags.None
    ensures Proxy(host, port) == Proxy(host, port, Option.None, Option.None, ProtocolFlags.None)
  {
  }

  /**
   * Construction never fails and checks nothing: a null or empty host,
   * port 0, a negative port and the largest `int` are all stored as given.
   */
  lemma NoValidation()
    ensures Proxy(Some(""), 0).host == Some("") && Proxy(Some(""), 0).port == 0
    ensures Proxy(Option.None, 80).host == Option.None
    ensures Proxy(Some("h"), -1).port == -1
    ensures Proxy(Some("h"), 0x7FFF_FFFF).port == 0x7FFF_FFFF
  {
  }

  /** Record equality is structural: two proxies are equal exactly when all five properties are. */
  lemma StructuralEquality(a: Proxy, b: Proxy)
    ensures a == b <==>
      (a.host == b.host && a.port == b.port && a.username == b.username
       && a.password == b.password && a.protocols == b.protocols)
  {
  }

  /** `p with { Host = h }`. */
  function WithHost(p: Proxy, h: Option<string>): (r: Proxy)
    ensures r.host == h
    ensures r.port == p.port && r.username == p.username && r.password == p.password
    ensures r.protocols == p.protocols
  {
    p.(host := h)
  }

  /** `p with { Port = n }`. */
  function WithPort(p: Proxy, n: int32): (r: Proxy)
    ensures r.port == n
    ensures r.host == p.host && r.username == p.username && r.password == p.password
    ensures r.protocols == p.protocols
  {
    p.(port := n)
  }

  /** `p with { Username = u }`. */
  function WithUsername(p: Proxy, u: Option<string>): (r: Proxy)
    ensures r.username == u
    ensures r.host == p.host && r.port == p.port && r.password == p.password
    ensures r.protocols == p.protocols
  {
    p.(username := u)
  }

  /** `p with { Password = w }`. */
  function WithPassword(p: Proxy, w: Option<string>): (r: Proxy)
    ensures r.password == w
    ensures r.host == p.host && r.port == p.port && r.username == p.username
    ensures r.protocols == p.protocols
  {
    p.(password := w)
  }

  /** `p with { Protocols = f }`. */
  function WithProtocols(p: Proxy, f: Protocols): (r: Proxy)
    ensures r.protocols == f
    ensures r.host == p.host && r.port == p.port && r.username == p.username
    ensures r.password == p.password
  {
    p.(protocols := f)
  }

  /** Replacing a property by its own value gives back an equal proxy, and a copy differs from the original only if the new value does. */
  lemma WithIsCopy(p: Proxy, h: Option<string>, n: int32, u: Option<string>, w: Option<string>, f: Protocols)
    ensures WithHost(p, p.host) == p && WithPort(p, p.port) == p && WithProtocols(p, p.protocols) == p
    ensures WithUsername(p, p.username) == p && WithPassword(p, p.password) == p
    ensures WithUsername(p, u) == p <==> u == p.username
    ensures WithPassword(p, w) == p <==> w == p.password
    ensures WithHost(p, h) == p <==> h == p.host
    ensures WithPort(p, n) == p <==> n == p.port
    ensures WithProtocols(p, f) == p <==> f == p.protocols
  {
  }
}
