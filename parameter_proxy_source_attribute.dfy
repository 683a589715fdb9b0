/**
 * `ParameterProxySourceAttribute`: one declared configuration parameter of a
 * proxy source type. Its constructor guards `name`, then `description`, and
 * stores them with `required` (default false) in get-only properties. A
 * source type may carry any number of these attributes.
 */
module ParameterAttributes {
  import opened Wrappers
  import opened Arguments

  /** The attribute's three get-only properties. */
  datatype ParameterProxySourceAttribute = ParameterProxySourceAttribute(
    name: string,
    description: string,
    required: bool)

  /** What every constructed parameter attribute satisfies. */
  predicate Valid(p: ParameterProxySourceAttribute) {
    !IsNullOrWhiteSpace(Some(p.name)) && !IsNullOrWhiteSpace(Some(p.description))
  }

  /**
   * `new ParameterProxySourceAttribute(name, description, required = false)`.
   * A null or blank `name` is reported first; only then is `description`
   * checked. On success the three arguments are stored as given.
   */
  function New(name: Option<string>, description: Option<string>, required: bool := false)
    : (r: Result<ParameterProxySourceAttribute, ArgumentError>)
    ensures r.Success? <==> !IsNullOrWhiteSpace(name) && !IsNullOrWhiteSpace(description)
    ensures IsNullOrWhiteSpace(name) ==> r == Failure(InvalidArgument("name"))
    ensures !IsNullOrWhiteSpace(name) && IsNullOrWhiteSpace(description) ==> r == Failure(InvalidArgument("description"))
    ensures r.Success? ==> Valid(r.value)
    ensures r.Success? ==>
      Some(r.value.name) == name && Some(r.value.description) == description && r.value.required == required
  {
    match ThrowIfNullOrWhiteSpace(name, "name")
    case Some(e) => Failure(e)
    case None =>
      match ThrowIfNullOrWhiteSpace(description, "description")
      case Some(e) => Failure(e)
      case None => Success(ParameterProxySourceAttribute(name.value, description.value, required))
  }

  /** When both arguments are bad, the error names `name`; it names `description` only when `name` is fine. */
  lemma NameCheckedBeforeDescription(name: Option<string>, description: Option<string>, required: bool)
    ensures New(name, description, required).Failure? ==>
      (New(name, description, required).error.paramName == "name" <==> IsNullOrWhiteSpace(name))
    ensures New(name, description, required).Failure? ==>
      (New(name, description, required).error.paramName == "description"
       <==> !IsNullOrWhiteSpace(name) && IsNullOrWhiteSpace(description))
  {
  }

  /** Omitting `required` is the same as passing false. */
  lemma RequiredDefaultsToFalse(name: Option<string>, description: Option<string>)
    ensures New(name, description) == New(name, description, false)
    ensures New(name, description).Success? ==> !New(name, description).value.required
  {
  }

  /** The arguments of one `[ParameterProxySource(...)]` usage. */
  datatype ParameterArguments = ParameterArguments(name: Option<string>, description: Option<string>, required: bool)

  /** The index of the first usage whose constructor throws, or `|args|` when none does. */
  function FirstInvalid(args: seq<ParameterArguments>): (k: nat)
    ensures k <= |args|
    ensures forall i :: 0 <= i < k ==> New(args[i].name, args[i].description, args[i].required).Success?
    ensures k < |args| ==> New(args[k].name, args[k].description, args[k].required).Failure?
  {
    if |args| == 0 then 0
    else if New(args[0].name, args[0].description, args[0].required).Failure? then 0
    else 1 + FirstInvalid(args[1..])
  }

  /**
   * Instantiating every parameter attribute of a source type, in order: the
   * first constructor that throws decides the error; otherwise the schema
   * lists one attribute per usage, fields equal to its arguments. Names are
   * not checked for uniqueness.
   */
  function NewAll(args: seq<ParameterArguments>): (r: Result<seq<ParameterProxySourceAttribute>, ArgumentError>)
    ensures r.Success? <==> FirstInvalid(args) == |args|
    ensures r.Failure? ==>
      var k := FirstInvalid(args);
      k < |args| && r.error == New(args[k].name, args[k].description, args[k].required).error
    ensures r.Success? ==> |r.value| == |args|
    ensures r.Success? ==> forall i :: 0 <= i < |args| ==>
      Valid(r.value[i])
      && Some(r.value[i].name) == args[i].name && Some(r.value[i].description) == args[i].description
      && r.value[i].required == args[i].required
  {
    if |args| == 0 then Success([])
    else
      match New(args[0].name, args[0].description, args[0].required)
      case Failure(e) => Failure(e)
      case Success(p) =>
        match NewAll(args[1..])
        case Failure(e) => Failure(e)
        case Success(ps) => Success([p] + ps)
  }

  /** Two usages with the same name are both accepted: uniqueness is documented, not enforced. */
  lemma DuplicateNamesAccepted(name: string, d1: string, d2: string, r1: bool, r2: bool)
    requires !IsNullOrWhiteSpace(Some(name))
    requires !IsNullOrWhiteSpace(Some(d1)) && !IsNullOrWhiteSpace(Some(d2))
    ensures var r := NewAll([ParameterArguments(Some(name), Some(d1), r1), ParameterArguments(Some(name), Some(d2), r2)]);
      r.Success? && |r.value| == 2 && r.value[0].name == r.value[1].name == name
  {
  }
}
