/** The destination normaliser of the map screen: the free text typed into
    the search box becomes the `destination` query value of the directions
    request by turning every space into `+`. */
module Destination {

  import JsString

  /** `destinationParser`: `destination.split(" ").join('+')`.  Each single
      space becomes one `+`; runs of spaces are not collapsed. */
  function DestinationParser(destination: string): (r: string)
    ensures |r| == |destination|
    ensures forall i :: 0 <= i < |r| ==>
      r[i] == (if destination[i] == ' ' then '+' else destination[i])
    ensures ' ' !in r
  {
    JsString.JoinSplitIsReplaceAll(destination, ' ', "+");
    JsString.ReplaceAllByCharPointwise(destination, ' ', '+');
    JsString.Join(JsString.Split(destination, ' '), "+")
  }

  /** On text that holds no space the normaliser changes nothing. */
  lemma IdentityOnSpaceFree(destination: string)
    requires ' ' !in destination
    ensures DestinationParser(destination) == destination
  {
  }

  /** Normalising twice is normalising once. */
  lemma Idempotent(destination: string)
    ensures DestinationParser(DestinationParser(destination)) == DestinationParser(destination)
  {
  }

  /** A run of `n` spaces becomes a run of `n` pluses. */
  lemma RunOfSpaces(n: nat)
    ensures DestinationParser(seq(n, _ => ' ')) == seq(n, _ => '+')
  {
  }

  /** Normalising a concatenation normalises each part in place. */
  lemma Concatenation(a: string, b: string)
    ensures DestinationParser(a + b) == DestinationParser(a) + DestinationParser(b)
  {
  }

  /** Words separated by single spaces come out separated by single pluses. */
  lemma TwoSpaces(a: string, b: string, c: string)
    requires ' ' !in a && ' ' !in b && ' ' !in c
    ensures DestinationParser(a + " " + b + " " + c) == a + "+" + b + "+" + c
  {
  }

  /** The worked example of the directions request. */
  lemma SanFrancisco()
    ensures DestinationParser("San Francisco CA") == "San+Francisco+CA"
  {
    TwoSpaces("San", "Francisco", "CA");
    assert "San Francisco CA" == "San" + " " + "Francisco" + " " + "CA";
    assert "San+Francisco+CA" == "San" + "+" + "Francisco" + "+" + "CA";
  }
}
