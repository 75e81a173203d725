/** A set of event types together with a set of addresses: what a node delivers to one connection,
    or what a subscriber wants delivered. */
module Topics {
  import opened Lists

  datatype Topics = Topics(types: set<string>, addresses: set<string>) {
    predicate Within(other: Topics) {
      types <= other.types && addresses <= other.addresses
    }

    predicate Apart(other: Topics) {
      types !! other.types && addresses !! other.addresses
    }

    function Plus(other: Topics): Topics {
      Topics(types + other.types, addresses + other.addresses)
    }

    function Minus(other: Topics): Topics {
      Topics(types - other.types, addresses - other.addresses)
    }

    function Common(other: Topics): Topics {
      Topics(types * other.types, addresses * other.addresses)
    }
  }

  ghost function Listed(types: seq<string>, addresses: seq<string>): Topics {
    Topics(Elements(types), Elements(addresses))
  }

  const PLACEHOLDER := "accounts"

  /** What a node delivers after the handshake of a subscriber that wants `desired`. The node
      rejects an empty type list, so the handshake then carries a placeholder type. */
  function Handshake(desired: Topics): Topics {
    if desired.types == {} then Topics({PLACEHOLDER}, desired.addresses) else desired
  }

  lemma HandshakeExactIff(desired: Topics)
    ensures desired.Within(Handshake(desired))
    ensures Handshake(desired) == desired <==> desired.types != {}
    ensures desired.types == {} ==> Handshake(desired).types == {"accounts"}
  {
    assert PLACEHOLDER in Topics({PLACEHOLDER}, desired.addresses).types;
  }
}
