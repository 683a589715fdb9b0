# Proxxi plugin SDK — data model and metadata validation

This project models the behavioural core of the Proxxi plugin SDK, the
contract through which proxy-source plugins hand proxies to a host:

- **`Protocols`** (`ProtocolFlags`, `protocols.dfy`): the `[Flags]` enum as the
  32-bit pattern of its underlying `int` (`bv32`), with `None = 0`,
  `Http = 1`, `Https = 2`, `Socks4 = 4`, `Socks5 = 8`, composition by OR and
  membership by AND. Subsets of the four named flags are proved to be in
  bijection with the values `0..15`.
- **`Proxy`** (`Proxies`, `proxy.dfy`): the positional record as an immutable
  datatype whose constructor has the same defaults (`Username` and `Password`
  absent, `Protocols.None`), structural equality, and `with` copies. The
  record validates nothing, and neither does the model: any host (null
  included, since nullable annotations are not enforced at run time) and
  any 32-bit port are accepted.
- **Argument guard** (`Arguments`, `arguments.dfy`):
  `ArgumentException.ThrowIfNullOrWhiteSpace` over an `Option<string>` (C#
  `null` is `None`), using the whitespace table documented for .NET's
  `char.IsWhiteSpace`.
- **`ProxySourceAttribute`** (`ProxySourceAttributes`,
  `proxy_source_attribute.dfy`): a smart constructor returning
  `Result<ProxySourceAttribute, ArgumentError>`, checking `id` then `name`,
  with `Description`, `HideBatch` and `HideStream` at their defaults and
  settable only by object initializers that leave everything else alone.
- **`ParameterProxySourceAttribute`** (`ParameterAttributes`,
  `parameter_proxy_source_attribute.dfy`): a smart constructor checking
  `name` then `description` and storing `required` (default false), plus
  the instantiation of a whole list of such attributes on one source type
  (uniqueness of names is not enforced).

The SDK validates less than one might expect, and the model validates
exactly as much as the code. `Proxy` (src/Proxxi.Plugin.Sdk/Models/Proxy.cs:11-17)
is a bare positional record with no check of `Host` or `Port`. No file of
the SDK checks configuration parameters against a dictionary: the
`Required` flag is metadata that the SDK only stores.

In `ProtocolFlags`, `Or`, `And` and `Has` are C#'s `a | b`, `a & b` and the
usual membership test `(p & f) != Protocols.None`. `FromSet` is the value
whose set bits are exactly a given set of named flags, and `Elements` is the
set of flags a list names. The lemmas below use both as reference
definitions.

## Model

| member | source | states |
|---|---|---|
| `Arguments.AllWhiteSpace` | src/Proxxi.Plugin.Sdk/Attributes/ProxySourceAttribute.cs:49-50 | the front-to-back scan is true exactly when every character is whitespace, and true for the empty string |
| `Arguments.IsNullOrWhiteSpace` | src/Proxxi.Plugin.Sdk/Attributes/ProxySourceAttribute.cs:49-50 | null is rejected; a present string is rejected exactly when all its characters are whitespace; an accepted string has a non-white character |
| `Arguments.ThrowIfNullOrWhiteSpace` | src/Proxxi.Plugin.Sdk/Attributes/ProxySourceAttribute.cs:49-50 | the guard throws exactly for null/empty/blank arguments, the error names the given parameter, and a passing argument is a non-empty string |
| `Arguments.PaddingPreservesVerdict` | src/Proxxi.Plugin.Sdk/Attributes/ParameterProxySourceAttribute.cs:33-34 | surrounding whitespace never changes the guard's verdict on a string |
| `ProtocolFlags.Value` | src/Proxxi.Plugin.Sdk/Models/Protocols.cs:17-32 | each named flag is a single non-zero bit below 16 |
| `ProtocolFlags.MembersLowBits` | src/Proxxi.Plugin.Sdk/Models/Protocols.cs:6-32 | the member flags of any value rebuild exactly its low four bits `p & 15`, so bits above the fourth play no part in membership |
| `ProtocolFlags.Combine` | src/Proxxi.Plugin.Sdk/Models/Protocols.cs:6-32 | ORing a list of flags gives the canonical value of the set of flags listed |
| `ProtocolFlags.NamedValues` | src/Proxxi.Plugin.Sdk/Models/Protocols.cs:12-32 | `None` is 0 and Http, Https, Socks4, Socks5 are 1, 2, 4, 8 |
| `ProtocolFlags.FlagsDisjoint` | src/Proxxi.Plugin.Sdk/Models/Protocols.cs:17-32 | two named flags AND to `None` exactly when they differ, and have distinct values |
| `ProtocolFlags.NoneIsIdentity` | src/Proxxi.Plugin.Sdk/Models/Protocols.cs:6-12 | `f \| None == f` on both sides for every value, and `None` has no members |
| `ProtocolFlags.OrAlgebra` | src/Proxxi.Plugin.Sdk/Models/Protocols.cs:6 | OR is commutative, associative and idempotent |
| `ProtocolFlags.MembershipSurvivesComposition` | src/Proxxi.Plugin.Sdk/Models/Protocols.cs:6-32 | `(a \| b) & b == b` for every value `a` and flag `b`, and the members of `a \| b` are those of `a` plus `b` |
| `ProtocolFlags.CompositionExamples` | src/Proxxi.Plugin.Sdk/Models/Protocols.cs:17-27 | `(Http\|Https) & Https` is non-zero, `(Http\|Https) & Socks4` is zero, and `Http\|Https` has members Http and Https |
| `ProtocolFlags.FromSetMembers` | src/Proxxi.Plugin.Sdk/Models/Protocols.cs:12-32 | the OR of any subset of the four flags lies in 0..15 and its members are that subset |
| `ProtocolFlags.FromSetOnto` | src/Proxxi.Plugin.Sdk/Models/Protocols.cs:12-32 | a value is the OR of its own members exactly when it lies in 0..15 |
| `ProtocolFlags.FromSetInjective` | src/Proxxi.Plugin.Sdk/Models/Protocols.cs:12-32 | distinct subsets of flags give distinct values, and equal subsets equal values |
| `ProtocolFlags.CombineCharacterised` | src/Proxxi.Plugin.Sdk/Models/Protocols.cs:6-32 | any OR of flags lies in 0..15, has as members the flags listed, and two ORs are equal exactly when they list the same flags |
| `Proxies.ConstructionStoresArguments` | src/Proxxi.Plugin.Sdk/Models/Proxy.cs:11-17 | the constructor stores each of the five arguments in the property of the same name |
| `Proxies.DefaultsWhenOmitted` | src/Proxxi.Plugin.Sdk/Models/Proxy.cs:14-16 | omitted username and password are absent and omitted protocols are `None` |
| `Proxies.NoValidation` | src/Proxxi.Plugin.Sdk/Models/Proxy.cs:11-13 | a null or empty host, port 0, a negative port and the largest `int` port are all accepted and stored |
| `Proxies.StructuralEquality` | src/Proxxi.Plugin.Sdk/Models/Proxy.cs:11 | two `Proxy` values are equal if and only if all five properties are equal |
| `Proxies.WithHost` | src/Proxxi.Plugin.Sdk/Models/Proxy.cs:11-12 | a copy with a new host keeps the other four properties |
| `Proxies.WithPort` | src/Proxxi.Plugin.Sdk/Models/Proxy.cs:11-13 | a copy with a new port keeps the other four properties |
| `Proxies.WithUsername` | src/Proxxi.Plugin.Sdk/Models/Proxy.cs:11-14 | a copy with a new username keeps the other four properties |
| `Proxies.WithPassword` | src/Proxxi.Plugin.Sdk/Models/Proxy.cs:11-15 | a copy with a new password keeps the other four properties |
| `Proxies.WithProtocols` | src/Proxxi.Plugin.Sdk/Models/Proxy.cs:11-16 | a copy with new protocols keeps the other four properties |
| `Proxies.WithIsCopy` | src/Proxxi.Plugin.Sdk/Models/Proxy.cs:11-17 | a copy equals the original exactly when the replaced property got its old value |
| `ProxySourceAttributes.New` | src/Proxxi.Plugin.Sdk/Attributes/ProxySourceAttribute.cs:47-54 | construction succeeds exactly when neither `id` nor `name` is null or blank; a bad `id` is reported as `id`, else a bad `name` as `name`; on success `Id == id`, `Name == name`, `Description` absent, both hide flags false |
| `ProxySourceAttributes.WithDescription` | src/Proxxi.Plugin.Sdk/Attributes/ProxySourceAttribute.cs:22-25 | setting `Description` leaves `Id`, `Name` and both hide flags unchanged |
| `ProxySourceAttributes.WithHideBatch` | src/Proxxi.Plugin.Sdk/Attributes/ProxySourceAttribute.cs:27-32 | setting `HideBatch` leaves every other property unchanged |
| `ProxySourceAttributes.WithHideStream` | src/Proxxi.Plugin.Sdk/Attributes/ProxySourceAttribute.cs:34-39 | setting `HideStream` leaves every other property unchanged |
| `ProxySourceAttributes.Declare` | src/Proxxi.Plugin.Sdk/Attributes/ProxySourceAttribute.cs:14-54 | the attribute with initializers fails exactly when its constructor does, with the same error; otherwise it is valid and holds the given id, name, description and hide flags |
| `ProxySourceAttributes.InitializersPreserveValidity` | src/Proxxi.Plugin.Sdk/Attributes/ProxySourceAttribute.cs:14-39 | the initializers keep `Id`/`Name` non-blank, and each of the three pairs of initializers commutes |
| `ProxySourceAttributes.IdCheckedBeforeName` | src/Proxxi.Plugin.Sdk/Attributes/ProxySourceAttribute.cs:49-50 | a failure names `id` exactly when `id` is bad, and names `name` exactly when `id` is fine and `name` is bad |
| `ProxySourceAttributes.Examples` | src/Proxxi.Plugin.Sdk/Attributes/ProxySourceAttribute.cs:13-19 | the documented id and name are accepted; a blank id and an empty name are rejected with the right parameter |
| `ParameterAttributes.New` | src/Proxxi.Plugin.Sdk/Attributes/ParameterProxySourceAttribute.cs:31-39 | construction succeeds exactly when neither `name` nor `description` is null or blank; a bad `name` is reported as `name`, else a bad `description` as `description`; on success the three properties equal the arguments |
| `ParameterAttributes.NameCheckedBeforeDescription` | src/Proxxi.Plugin.Sdk/Attributes/ParameterProxySourceAttribute.cs:33-34 | a failure names `name` exactly when `name` is bad, and names `description` exactly when `name` is fine and `description` is bad |
| `ParameterAttributes.RequiredDefaultsToFalse` | src/Proxxi.Plugin.Sdk/Attributes/ParameterProxySourceAttribute.cs:29-31 | omitting `required` is the same as passing false |
| `ParameterAttributes.FirstInvalid` | src/Proxxi.Plugin.Sdk/Attributes/ParameterProxySourceAttribute.cs:33-34 | every usage before the returned index constructs, and the one at it (if any) throws |
| `ParameterAttributes.NewAll` | src/Proxxi.Plugin.Sdk/Attributes/ParameterProxySourceAttribute.cs:6-39 | a list of usages succeeds exactly when every one constructs; otherwise the first failing usage's error is reported; on success there is one valid attribute per usage with its arguments |
| `ParameterAttributes.DuplicateNamesAccepted` | src/Proxxi.Plugin.Sdk/Attributes/ParameterProxySourceAttribute.cs:6-27 | two usages with the same name are both accepted, since uniqueness is not enforced |

Immutability needs no lemma: all three record types are Dafny datatypes,
so the get-only and init-only properties cannot change after construction.
The only way to get a different value is a `with` copy or an object
initializer, and the `With…` functions model those.

## Left out

- The source interfaces `IProxySource`, `IBatchProxySource` and `IStreamProxySource` have no bodies. They are asynchronous `Task`/`IAsyncEnumerable` signatures with `CancellationToken` and `IAsyncDisposable`, and the rule "initialize before fetch" is only documentation for callers. No lifecycle state machine, cancellation or disposal behaviour is implemented in the SDK, so none is modelled.
- Registry-side checks are not implemented by the SDK, so the model has none of them: required parameters against a dictionary, id format or uniqueness, port range, host emptiness, username/password pairing.
- `AttributeUsage` targeting and inheritance, and discovery by reflection, are runtime plumbing. Only `AllowMultiple = true` is modelled, as the list that `NewAll` instantiates. Reflection does not promise an order, so when several usages are invalid, which error is reported depends on an order the model takes as given.
- The `ArgumentNullException` thrown for `null` and the `ArgumentException` thrown for blank strings are one `InvalidArgument(paramName)` error. The exception message text is not modelled.
- Arguments.IsWhiteSpace works on Unicode scalar values (Dafny `char`), not on UTF-16 code units. The table is the one .NET documents for `char.IsWhiteSpace`, and every character in it is a single UTF-16 unit, so the verdict on a string is the same.
- StructuralEquality: compares the five properties only. `Proxy` is an unsealed record, so its generated `Equals` also compares `EqualityContract`, the runtime type; an instance of a derived record with the same five values is unequal to a `Proxy`. Inheritance from records is not modelled.
- `Protocols` values outside `0..15` (integers cast to the enum) are allowed in the model, as in C#. `Members` ignores their extra bits, and `ToString`/`HasFlag` formatting is not modelled.
