/** The gtest cases of the chromosome, as client methods: each one builds its
    chromosomes over the test double and states, as its postcondition, what the
    test asserts. They use only the contracts of Chromosome, so each proves
    that those contracts pin the tested behaviour down. */
module ChromosomeTests {
  import opened Errors
  import opened Strand
  import opened Landscape
  import opened Provider
  import opened StateDump
  import opened Chromosomes

  /** Chromosome "1" over the test double of the given size, as create_chromosome builds it. */
  method CreateChromosome(size: nat) returns (c: Chromosome)
    requires size > 0
    ensures fresh(c) && fresh(c.strand) && fresh(c.landscape)
    ensures c.Valid() && c.GetCode() == "1" && c.Size() == size
    ensures c.strand[..] == Fresh(size)
    ensures c.landscape[..] == seq(size, _ => 1.0 / (size + 1) as real)
  {
    var p := TestingProvider(size);
    var r := Chromosome.Create("1", p);
    c := r.value;
  }

  method ZeroOrNegativeLength() returns (r: Result<Chromosome>)
    ensures r.Err? && r.fault == InvalidArgument
  {
    r := Chromosome.Create("1", TestingProvider(0));
  }

  method SizeScenario() returns (n300: int, n500: int)
    ensures n300 == 300 && n500 == 500
  {
    var c300 := CreateChromosome(300);
    n300 := c300.Size();
    var c500 := CreateChromosome(500);
    n500 := c500.Size();
  }

  method OutOfRangeQueries() returns (b400: Result<bool>, b301: Result<bool>, p301: Result<real>, p400: Result<real>)
    ensures b400 == Err(OutOfRange) && b301 == Err(OutOfRange)
    ensures p301 == Err(OutOfRange) && p400 == Err(OutOfRange)
  {
    var c := CreateChromosome(300);
    b400 := c.BaseIsReplicated(400);
    b301 := c.BaseIsReplicated(301);
    p301 := c.ActivationProbability(301);
    p400 := c.ActivationProbability(400);
  }

  method BaseIsReplicatedScenario() returns (noneBefore: bool, r: Result<bool>, at4: Result<bool>, at5: Result<bool>)
    ensures noneBefore && r == Ok(true) && at4 == Ok(true) && at5 == Ok(true)
  {
    var c := CreateChromosome(300);
    noneBefore := true;
    for i := 0 to 300
      invariant noneBefore
    {
      var q := c.BaseIsReplicated(i);
      noneBefore := noneBefore && q == Ok(false);
    }
    r := c.Replicate(4, 6, 1);
    at4 := c.BaseIsReplicated(4);
    at5 := c.BaseIsReplicated(5);
  }

  method ActivationProbabilityScenario() returns (p0: Result<real>, p10: Result<real>, q0: Result<real>, q4: Result<real>)
    ensures p0.Ok? && p10.Ok?
    ensures q0 == Ok(1.0 / 301.0) && q4 == Ok(1.0 / 501.0)
  {
    var c := CreateChromosome(300);
    p0 := c.ActivationProbability(0);
    p10 := c.ActivationProbability(10);
    var c300 := CreateChromosome(300);
    q0 := c300.ActivationProbability(0);
    var c500 := CreateChromosome(500);
    q4 := c500.ActivationProbability(4);
  }

  /** Damping around the middle of a 300000-base chromosome keeps every base of
      130000..169999 below 1/300000 + 1, the bound the test writes. */
  method SetDormantScenario(k: Kernel) returns (allBelow: bool)
    requires IsDamping(k)
    ensures allBelow
  {
    var size := 300000;
    var c := CreateChromosome(size);
    ghost var before := c.landscape[..];
    var r := c.SetDormantActivationProbability(size / 2, k);
    assert IsProbabilities(before);
    DampingSuppresses(before, size / 2, k);
    allBelow := true;
    for i := 130000 to 170000
      invariant allBelow
    {
      var p := c.ActivationProbability(i);
      allBelow := allBelow && p.Ok? && p.value < 1.0 / size as real + 1.0;
    }
  }

  method SetDormantOutsideChromosome(k: Kernel) returns (r400: Outcome, rNeg: Outcome)
    ensures r400 == Fail(OutOfRange) && rNeg == Fail(OutOfRange)
  {
    var c := CreateChromosome(300);
    r400 := c.SetDormantActivationProbability(400, k);
    rNeg := c.SetDormantActivationProbability(-1, k);
  }

  method OutOfRangeReplicate() returns (a: Result<bool>, b: Result<bool>)
    ensures a == Err(OutOfRange) && b == Err(OutOfRange)
  {
    var c := CreateChromosome(300);
    a := c.Replicate(-3, 6, 30);
    b := c.Replicate(301, 150, 30);
  }

  method InRangeReplicate() returns (a: Result<bool>, b: Result<bool>)
    ensures a == Ok(true) && b == Ok(true)
  {
    var c := CreateChromosome(300);
    a := c.Replicate(3, 1500, 30);
    b := c.Replicate(3, 15, 30);
  }

  method ReplicateScenario() returns (r: Result<bool>, allMarked: bool, count: int)
    ensures r == Ok(true) && allMarked && count == 31
  {
    var c := CreateChromosome(300);
    r := c.Replicate(0, 30, 1);
    allMarked := true;
    for b := 0 to 30
      invariant allMarked
    {
      var q := c.BaseIsReplicated(b);
      allMarked := allMarked && q == Ok(true);
    }
    CountMarkedFresh(300, 0, 30, 1);
    count := c.GetNReplicatedBases();
  }

  method IsReplicatedScenario() returns (before: bool, after: bool)
    ensures !before && after
  {
    var c := CreateChromosome(300);
    before := c.IsReplicated();
    var r := c.Replicate(0, 300, 1);
    after := c.IsReplicated();
  }

  method GetCodeScenario() returns (code: string)
    ensures code == "1"
  {
    var c := CreateChromosome(300);
    code := c.GetCode();
  }

  method OperatorVector() returns (first: Result<int>, last: Result<int>, afterFirst: Result<int>)
    ensures first == Ok(-1) && last == Ok(-1) && afterFirst == Ok(1)
  {
    var c := CreateChromosome(300);
    first := c.At(0);
    last := c.At(299);
    var r := c.Replicate(0, 1, 1);
    afterFirst := c.At(0);
  }

  method ToStringScenario() returns (s: string)
    ensures s == "1\n1\n-1\n"
  {
    var c := CreateChromosome(3);
    var r := c.Replicate(0, 1, 1);
    s := c.ToString();
    assert c.strand[..] == [1, 1, -1];
    assert IntToString(1) == "1" && IntToString(-1) == "-1";
    assert Dump([1, 1, -1]) == "1\n" + Dump([1, -1]);
    assert Dump([1, -1]) == "1\n" + Dump([-1]);
    assert Dump([-1]) == "-1\n" + Dump([]);
  }
}
