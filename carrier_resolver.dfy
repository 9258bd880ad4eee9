/**
 * Carrier lookup by code (app/Domain/Carriers/CarrierResolver.php):
 * case-insensitive, with no default carrier.
 */
module CarrierResolver {
  import opened Wrappers
  import opened PhpStrings
  import InPostCarrier

  /** The carrier implementations that can be resolved. */
  datatype Carrier = InPost

  /** The InvalidArgumentException for an unknown code, naming the upper-cased code. */
  datatype ResolveError = UnknownCarrier(code: string)
  {
    function Message(): string
    {
      "Unknown carrier: " + code
    }
  }

  /** The name the resolved implementation reports. */
  function Name(c: Carrier): string
  {
    match c
    case InPost => InPostCarrier.GetName()
  }

  /** `resolve`: upper-case the code and match it; anything but INPOST raises. */
  function Resolve(code: string): (r: Result<Carrier, ResolveError>)
    ensures r.Success? <==> Upper(code) == "INPOST"
    ensures r.Failure? ==> r.error == UnknownCarrier(Upper(code))
  {
    var upper := Upper(code);
    if upper == "INPOST" then Success(InPost) else Failure(UnknownCarrier(upper))
  }

  /** Resolving a code and resolving its upper-cased form agree. */
  lemma ResolveIgnoresCase(code: string)
    ensures Resolve(Upper(code)) == Resolve(code)
  {
    UpperIdempotent(code);
  }

  /** Every spelling of "inpost", in any mix of cases, resolves to the InPost carrier. */
  lemma AnyCasingResolves(code: string)
    requires |code| == 6
    requires forall i :: 0 <= i < 6 ==> UpperChar(code[i]) == "INPOST"[i]
    ensures Resolve(code) == Success(InPost)
  {
    assert Upper(code) == "INPOST";
  }

  /** Every carrier is found again by resolving the name it reports. */
  lemma NameResolvesBack(c: Carrier)
    ensures Resolve(Name(c)) == Success(c)
  {
    UpperOfUpper(Name(c));
  }

  /** The resolved carrier reports the name INPOST. */
  lemma ResolvedCarrierIsInPost(code: string)
    requires Resolve(code).Success?
    ensures Name(Resolve(code).value) == "INPOST"
  {
  }
}
