/** The data provider a chromosome is built from: for a chromosome code it
    answers the chromosome's length and its activation-probability landscape. */
module Provider {

  datatype DataProvider = DataProvider(getLength: string -> int, getLandscape: string -> seq<real>)

  /** What every provider promises for a code: a positive length comes with one
      landscape value per base. */
  predicate Consistent(p: DataProvider, code: string)
  {
    p.getLength(code) > 0 ==> |p.getLandscape(code)| == p.getLength(code)
  }

  /** The test double: `size` bases for every code, each with probability 1/(size+1). */
  function TestingProvider(size: nat): (p: DataProvider)
    ensures forall code :: Consistent(p, code) && p.getLength(code) == size
    ensures forall code, i :: 0 <= i < |p.getLandscape(code)| ==> p.getLandscape(code)[i] == 1.0 / (size + 1) as real
  {
    var uniform := seq(size, _ => 1.0 / (size + 1) as real);
    DataProvider(_ => size, _ => uniform)
  }
}
