/**
 * `ProxySourceAttribute`: the identity metadata of a proxy source type.
 * Its constructor guards `id`, then `name`, and stores both; the optional
 * `Description`, `HideBatch` and `HideStream` are init-only properties that
 * keep their defaults unless an object initializer sets them.
 */
module ProxySourceAttributes {
  import opened Wrappers
  import opened Arguments

  /** The attribute's five properties. */
  datatype ProxySourceAttribute = ProxySourceAttribute(
    id: string,
    name: string,
    description: Option<string>,
    hideBatch: bool,
    hideStream: bool)

  /** What every constructed attribute satisfies: neither `Id` nor `Name` is empty or blank. */
  predicate Valid(a: ProxySourceAttribute) {
    !IsNullOrWhiteSpace(Some(a.id)) && !IsNullOrWhiteSpace(Some(a.name))
  }

  /**
   * `new ProxySourceAttribute(id, name)`. A null or blank `id` is reported
   * first; only then is `name` checked. On success the identity is stored
   * and the optional properties hold their defaults.
   */
  function New(id: Option<string>, name: Option<string>): (r: Result<ProxySourceAttribute, ArgumentError>)
    ensures r.Success? <==> !IsNullOrWhiteSpace(id) && !IsNullOrWhiteSpace(name)
    ensures IsNullOrWhiteSpace(id) ==> r == Failure(InvalidArgument("id"))
    ensures !IsNullOrWhiteSpace(id) && IsNullOrWhiteSpace(name) ==> r == Failure(InvalidArgument("name"))
    ensures r.Success? ==> Valid(r.value)
    ensures r.Success? ==> Some(r.value.id) == id && Some(r.value.name) == name
    ensures r.Success? ==> r.value.description == None && !r.value.hideBatch && !r.value.hideStream
  {
    match ThrowIfNullOrWhiteSpace(id, "id")
    case Some(e) => Failure(e)
    case None =>
      match ThrowIfNullOrWhiteSpace(name, "name")
      case Some(e) => Failure(e)
      case None => Success(ProxySourceAttribute(id.value, name.value, None, false, false))
  }

  /** The initializer `Description = d`: no other property changes. */
  function WithDescription(a: ProxySourceAttribute, d: Option<string>): (r: ProxySourceAttribute)
    ensures r.description == d
    ensures r.id == a.id && r.name == a.name && r.hideBatch == a.hideBatch && r.hideStream == a.hideStream
  {
    a.(description := d)
  }

  /** The initializer `HideBatch = b`: a UI hint only, so no other property changes. */
  function WithHideBatch(a: ProxySourceAttribute, b: bool): (r: ProxySourceAttribute)
    ensures r.hideBatch == b
    ensures r.id == a.id && r.name == a.name && r.description == a.description && r.hideStream == a.hideStream
  {
    a.(hideBatch := b)
  }

  /** The initializer `HideStream = b`: a UI hint only, so no other property changes. */
  function WithHideStream(a: ProxySourceAttribute, b: bool): (r: ProxySourceAttribute)
    ensures r.hideStream == b
    ensures r.id == a.id && r.name == a.name && r.description == a.description && r.hideBatch == a.hideBatch
  {
    a.(hideStream := b)
  }

  /**
   * The attribute as written on a class, `[ProxySource(id, name, Description = d,
   * HideBatch = hb, HideStream = hs)]`: the constructor runs, then the
   * initializers. An initializer never rescues or causes a failure.
   */
  function Declare(id: Option<string>, name: Option<string>, description: Option<string> := None,
                   hideBatch: bool := false, hideStream: bool := false): (r: Result<ProxySourceAttribute, ArgumentError>)
    ensures r.Failure? <==> New(id, name).Failure?
    ensures r.Failure? ==> r == New(id, name)
    ensures r.Success? ==>
      Valid(r.value) && Some(r.value.id) == id && Some(r.value.name) == name
      && r.value.description == description && r.value.hideBatch == hideBatch && r.value.hideStream == hideStream
  {
    match New(id, name)
    case Failure(e) => Failure(e)
    case Success(a) => Success(WithHideStream(WithHideBatch(WithDescription(a, description), hideBatch), hideStream))
  }

  /** The initializers keep the invariant and are independent of each other. */
  lemma InitializersPreserveValidity(a: ProxySourceAttribute, d: Option<string>, b: bool, s: bool)
    requires Valid(a)
    ensures Valid(WithDescription(a, d)) && Valid(WithHideBatch(a, b)) && Valid(WithHideStream(a, s))
    ensures WithHideBatch(WithHideStream(a, s), b) == WithHideStream(WithHideBatch(a, b), s)
    ensures WithDescription(WithHideBatch(a, b), d) == WithHideBatch(WithDescription(a, d), b)
    ensures WithDescription(WithHideStream(a, s), d) == WithHideStream(WithDescription(a, d), s)
  {
  }

  /** When both arguments are bad, the error names `id`; an error names `name` only when `id` is fine. */
  lemma IdCheckedBeforeName(id: Option<string>, name: Option<string>)
    ensures New(id, name).Failure? ==>
      (New(id, name).error.paramName == "id" <==> IsNullOrWhiteSpace(id))
    ensures New(id, name).Failure? ==>
      (New(id, name).error.paramName == "name" <==> !IsNullOrWhiteSpace(id) && IsNullOrWhiteSpace(name))
  {
  }

  /** The documented example `[ProxySource("imus663.free-proxy-list", "Free Proxy List")]` is accepted; a blank id is not. */
  lemma Examples()
    ensures New(Some("imus663.free-proxy-list"), Some("Free Proxy List")).Success?
    ensures New(Some("  "), None) == Failure(InvalidArgument("id"))
    ensures New(Some("a.b"), Some("")) == Failure(InvalidArgument("name"))
  {
    assert !IsWhiteSpace('i') && !IsWhiteSpace('F') && !IsWhiteSpace('a');
  }
}
