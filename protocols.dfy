/**
 * The `[Flags]` enum `Protocols`: a 32-bit integer (the enum's underlying
 * type) in which `None` is 0 and the four named protocols are single bits.
 * Flags are combined with bitwise OR and tested with bitwise AND.
 */
module ProtocolFlags {

  /** A `Protocols` value: the bit pattern of the enum's underlying `int`. */
  type Protocols = bv32

  const None: Protocols := 0
  const Http: Protocols := 1 << 0
  const Https: Protocols := 1 << 1
  const Socks4: Protocols := 1 << 2
  const Socks5: Protocols := 1 << 3

  /** The four named members of the enum other than `None`. */
  datatype Flag = HttpFlag | HttpsFlag | Socks4Flag | Socks5Flag

  /** The enum value of a named flag: a single bit, below 16. */
  function Value(f: Flag): (r: Protocols)
    ensures r != None && r & (r - 1) == None
    ensures r < 16
  {
    match f
    case HttpFlag => Http
    case HttpsFlag => Https
    case Socks4Flag => Socks4
    case Socks5Flag => Socks5
  }

  /** Composition of flags, `a | b`. */
  function Or(a: Protocols, b: Protocols): Protocols { a | b }

  /** Masking of flags, `a & b`. */
  function And(a: Protocols, b: Protocols): Protocols { a & b }

  /** The usual membership test `(p & f) != Protocols.None`. */
  predicate Has(p: Protocols, f: Flag) { And(p, Value(f)) != None }

  /** All four named flags. */
  const AllFlags: set<Flag> := {HttpFlag, HttpsFlag, Socks4Flag, Socks5Flag}

  lemma AllFlagsComplete()
    ensures forall f: Flag :: f in AllFlags
  {
    forall f: Flag ensures f in AllFlags {
      match f
      case HttpFlag =>
      case HttpsFlag =>
      case Socks4Flag =>
      case Socks5Flag =>
    }
  }

  /** The named flags set in `p`; any bit above the fourth is ignored. */
  function Members(p: Protocols): (r: set<Flag>)
    ensures forall f :: f in r <==> Has(p, f)
  {
    AllFlagsComplete();
    set f | f in AllFlags && Has(p, f)
  }

  function Bit(s: set<Flag>, f: Flag): Protocols { if f in s then Value(f) else None }

  /** The enum value whose set bits are exactly the flags in `s`. */
  function FromSet(s: set<Flag>): Protocols
  {
    Or(Or(Or(Bit(s, HttpFlag), Bit(s, HttpsFlag)), Bit(s, Socks4Flag)), Bit(s, Socks5Flag))
  }

  /** The set of flags listed in `fs`. */
  function Elements(fs: seq<Flag>): set<Flag> { set f | f in fs }

  /** `fs[0] | fs[1] | ... | fs[n-1]`, folded from the left as C# evaluates it. */
  function Combine(fs: seq<Flag>): (r: Protocols)
    ensures r == FromSet(Elements(fs))
  {
    if |fs| == 0 then None
    else
      var r := Or(Combine(fs[..|fs| - 1]), Value(fs[|fs| - 1]));
      assert Elements(fs) == Elements(fs[..|fs| - 1]) + {fs[|fs| - 1]} by {
        assert fs == fs[..|fs| - 1] + [fs[|fs| - 1]];
      }
      FromSetInsert(Elements(fs[..|fs| - 1]), fs[|fs| - 1]);
      r
  }

  /** Adding a flag to a set ORs its bit into the value. */
  lemma FromSetInsert(s: set<Flag>, f: Flag)
    ensures FromSet(s + {f}) == Or(FromSet(s), Value(f))
  {
    var p, q := FromSet(s + {f}), Or(FromSet(s), Value(f));
    FromSetMembers(s + {f});
    FromSetMembers(s);
    MembershipSurvivesComposition(FromSet(s), f);
    assert q <= 15;
    FromSetOnto(p);
    FromSetOnto(q);
  }

  /** `None` is 0 and the named flags are exactly 1, 2, 4 and 8. */
  lemma NamedValues()
    ensures None == 0
    ensures Value(HttpFlag) == 1 && Value(HttpsFlag) == 2
    ensures Value(Socks4Flag) == 4 && Value(Socks5Flag) == 8
  {
  }

  /** Two different named flags share no bit. */
  lemma FlagsDisjoint(f: Flag, g: Flag)
    ensures f != g <==> And(Value(f), Value(g)) == None
    ensures f != g <==> Value(f) != Value(g)
  {
  }

  /** `None` is the identity of OR. */
  lemma NoneIsIdentity(p: Protocols)
    ensures Or(p, None) == p && Or(None, p) == p
    ensures Members(None) == {}
  {
  }

  /** OR is commutative, associative and idempotent. */
  lemma OrAlgebra(a: Protocols, b: Protocols, c: Protocols)
    ensures Or(a, b) == Or(b, a)
    ensures Or(Or(a, b), c) == Or(a, Or(b, c))
    ensures Or(a, a) == a
  {
  }

  /** A flag ORed into any combination is still found by AND, and nothing already present is lost. */
  lemma MembershipSurvivesComposition(a: Protocols, f: Flag)
    ensures And(Or(a, Value(f)), Value(f)) == Value(f)
    ensures Members(Or(a, Value(f))) == Members(a) + {f}
  {
    var vf := Value(f);
    assert And(Or(a, vf), vf) == vf;
    forall g ensures g in Members(Or(a, vf)) <==> g in Members(a) + {f} {
      var vg := Value(g);
      FlagsDisjoint(f, g);
      assert And(Or(a, vf), vg) == Or(And(a, vg), And(vf, vg));
    }
  }

  /** `(Http | Https) & Https` is non-zero and `(Http | Https) & Socks4` is zero. */
  lemma CompositionExamples()
    ensures And(Or(Http, Https), Https) != None
    ensures And(Or(Http, Https), Socks4) == None
    ensures Members(Or(Http, Https)) == {HttpFlag, HttpsFlag}
  {
  }

  /** Four bits, each either clear or its own flag, OR to a value below 16 from which AND reads each back. */
  lemma FourBits(b1: Protocols, b2: Protocols, b3: Protocols, b4: Protocols)
    requires (b1 == None || b1 == Http) && (b2 == None || b2 == Https)
    requires (b3 == None || b3 == Socks4) && (b4 == None || b4 == Socks5)
    ensures var p := ((b1 | b2) | b3) | b4;
      p <= 15 && p & Http == b1 && p & Https == b2 && p & Socks4 == b3 && p & Socks5 == b4
  {
  }

  /** The AND-test of a flag in a combination reads back that flag's bit. */
  lemma HasFromSet(s: set<Flag>, f: Flag)
    ensures FromSet(s) <= 15
    ensures And(FromSet(s), Value(f)) == Bit(s, f)
  {
    FourBits(Bit(s, HttpFlag), Bit(s, HttpsFlag), Bit(s, Socks4Flag), Bit(s, Socks5Flag));
    match f
    case HttpFlag =>
    case HttpsFlag =>
    case Socks4Flag =>
    case Socks5Flag =>
  }

  /** Every combination of named flags lies in 0..15, and its members are the flags it was built from. */
  lemma {:induction false} FromSetMembers(s: set<Flag>)
    ensures FromSet(s) <= 15
    ensures Members(FromSet(s)) == s
  {
    HasFromSet(s, HttpFlag);
    forall f ensures f in Members(FromSet(s)) <==> f in s {
      HasFromSet(s, f);
    }
  }

  /** Every value in 0..15 is the combination of exactly its member flags, and nothing else is. */
  lemma {:induction false} FromSetOnto(p: Protocols)
    ensures FromSet(Members(p)) == p <==> p <= 15
  {
    FromSetMembers(Members(p));
  }

  /** Masking with 15 keeps every bit below 16. */
  lemma LowMask(p: Protocols, v: Protocols)
    requires v < 16
    ensures And(And(p, 15), v) == And(p, v)
  {
  }

  /** `Members` reads only the four named bits: the value they rebuild is `p & 15`. */
  lemma {:induction false} MembersLowBits(p: Protocols)
    ensures FromSet(Members(p)) == And(p, 15)
    ensures Members(And(p, 15)) == Members(p)
  {
    var q := And(p, 15);
    forall f ensures And(q, Value(f)) == And(p, Value(f)) {
      LowMask(p, Value(f));
    }
    assert q <= 15;
    assert Members(q) == Members(p);
    FromSetOnto(q);
  }

  /** Distinct sets of flags give distinct values: sets of flags and 0..15 are in bijection. */
  lemma {:induction false} FromSetInjective(s: set<Flag>, t: set<Flag>)
    ensures FromSet(s) == FromSet(t) <==> s == t
  {
    FromSetMembers(s);
    FromSetMembers(t);
  }

  /** OR over any list of flags stays in 0..15, and two lists give the same value exactly when they name the same flags. */
  lemma {:induction false} CombineCharacterised(fs: seq<Flag>, gs: seq<Flag>)
    ensures Combine(fs) <= 15 && Members(Combine(fs)) == Elements(fs)
    ensures Combine(fs) == Combine(gs) <==> Elements(fs) == Elements(gs)
  {
    FromSetMembers(Elements(fs));
    FromSetInjective(Elements(fs), Elements(gs));
  }
}
