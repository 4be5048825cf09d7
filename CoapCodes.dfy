/** The CoAP response codes the resource handlers answer with
    (section 5.9 and the registry in section 12.1.2 of RFC 7252). */
module CoapCodes {

  datatype ResponseCode =
    | Created | Deleted | Changed | Content
    | BadRequest | BadOption | Forbidden | NotFound
    | InternalServerError
  {
    /** Success codes are class 2 ... */
    predicate IsSuccess() { Created? || Deleted? || Changed? || Content? }

    /** ... and the code written c.dd, e.g. 4.02 for Bad Option. */
    function Number(): (r: (nat, nat))
      ensures IsSuccess() <==> r.0 == 2
      ensures !IsSuccess() ==> r.0 == 4 || r.0 == 5
      ensures r.1 < 32
    {
      match this
      case Created => (2, 1)
      case Deleted => (2, 2)
      case Changed => (2, 4)
      case Content => (2, 5)
      case BadRequest => (4, 0)
      case BadOption => (4, 2)
      case Forbidden => (4, 3)
      case NotFound => (4, 4)
      case InternalServerError => (5, 0)
    }
  }
}
