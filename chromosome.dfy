/** The per-base replication-state engine of one chromosome: a fixed-length
    strand of replication markers, a landscape of activation probabilities
    copied from the data provider, and a count of replicated bases kept in step
    with the strand. */
module Chromosomes {
  import opened Errors
  import opened Strand
  import opened Landscape
  import opened Provider
  import opened StateDump

  class Chromosome {
    const code: string
    const length: int
    const strand: array<int>
    const landscape: array<real>
    var nReplicated: int

    /** The object invariant: a positive length, both arrays one entry per base,
        and the counter equal to the number of replicated bases. */
    ghost predicate Valid()
      reads this, strand
    {
      && 0 < length
      && strand.Length == length
      && landscape.Length == length
      && nReplicated == CountReplicated(strand[..])
    }

    constructor Init(code: string, n: int, ls: seq<real>)
      requires 0 < n && |ls| == n
      ensures Valid() && fresh(strand) && fresh(landscape)
      ensures this.code == code && length == n
      ensures strand[..] == Fresh(n) && landscape[..] == ls
    {
      this.code := code;
      length := n;
      strand := new int[n](_ => Unreplicated);
      landscape := new real[n](j requires 0 <= j < n => ls[j]);
      nReplicated := 0;
      new;
      assert strand[..] == Fresh(n);
      CountFresh(n);
    }

    /** Builds the chromosome `code` from what `provider` answers for it; a
        length that is not positive is an invalid argument. */
    static method Create(code: string, provider: DataProvider) returns (r: Result<Chromosome>)
      requires Consistent(provider, code)
      ensures r.Err? <==> provider.getLength(code) <= 0
      ensures r.Err? ==> r.fault == InvalidArgument
      ensures r.Ok? ==> var c := r.value;
        && fresh(c) && fresh(c.strand) && fresh(c.landscape) && c.Valid()
        && c.GetCode() == code && c.Size() == provider.getLength(code)
        && c.strand[..] == Fresh(c.length) && c.landscape[..] == provider.getLandscape(code)
    {
      var n := provider.getLength(code);
      if n <= 0 {
        return Err(InvalidArgument);
      }
      var c := new Chromosome.Init(code, n, provider.getLandscape(code));
      return Ok(c);
    }

    /** The chromosome's identifier, fixed at construction. */
    function GetCode(): (c: string)
      ensures c == code
    {
      code
    }

    /** Number of bases. */
    function Size(): (n: int)
      reads this, strand
      requires Valid()
      ensures 0 < n && n == strand.Length == landscape.Length
    {
      length
    }

    /** Whether base i has been replicated; out of range unless 0 <= i < Size(). */
    function BaseIsReplicated(i: int): (r: Result<bool>)
      reads this, strand
      requires Valid()
      ensures r.Err? <==> i < 0 || length <= i
      ensures r.Err? ==> r.fault == OutOfRange
      ensures r.Ok? ==> (r.value <==> strand[i] != Unreplicated)
    {
      if i < 0 || length <= i then Err(OutOfRange) else Ok(strand[i] != Unreplicated)
    }

    /** The raw state of base i: Unreplicated or the id of the fork that last covered it. */
    function At(i: int): (r: Result<int>)
      reads this, strand
      requires Valid()
      ensures r.Err? <==> i < 0 || length <= i
      ensures r.Err? ==> r.fault == OutOfRange
      ensures r.Ok? ==> r.value == strand[i]
    {
      if i < 0 || length <= i then Err(OutOfRange) else Ok(strand[i])
    }

    /** The activation probability of base i. */
    function ActivationProbability(i: int): (r: Result<real>)
      reads this, strand, landscape
      requires Valid()
      ensures r.Err? <==> i < 0 || length <= i
      ensures r.Err? ==> r.fault == OutOfRange
      ensures r.Ok? ==> r.value == landscape[i]
    {
      if i < 0 || length <= i then Err(OutOfRange) else Ok(landscape[i])
    }

    /** Number of bases that carry a fork id. */
    function GetNReplicatedBases(): (n: int)
      reads this, strand
      requires Valid()
      ensures 0 <= n <= length
      ensures n == CountReplicated(strand[..])
    {
      nReplicated
    }

    /** Whether every base has been replicated. */
    function IsReplicated(): (b: bool)
      reads this, strand
      requires Valid()
      ensures b <==> forall i :: 0 <= i < length ==> strand[i] != Unreplicated
    {
      CountAll(strand[..]);
      nReplicated == length
    }

    /** Marks bases start..min(end, Size() - 1), both inclusive, with `fork`.
        Only `start` is checked; an `end` past the last base means "to the end". */
    method Replicate(start: int, end: int, fork: int) returns (r: Result<bool>)
      requires Valid() && fork != Unreplicated
      modifies this`nReplicated, strand
      ensures Valid()
      ensures r.Err? <==> start < 0 || length <= start
      ensures r.Err? ==> r.fault == OutOfRange && strand[..] == old(strand[..])
      ensures r.Ok? ==> r.value && strand[..] == Marked(old(strand[..]), start, LastBase(end), fork)
      ensures old(nReplicated) <= nReplicated
    {
      if start < 0 || length <= start {
        return Err(OutOfRange);
      }
      var last := LastBase(end);
      var b := start;
      while b <= last
        invariant start <= b <= if last < start then start else last + 1
        invariant strand[..] == Marked(old(strand[..]), start, b - 1, fork)
        invariant nReplicated == CountReplicated(strand[..])
      {
        CountUpdate(strand[..], b, fork);
        if strand[b] == Unreplicated {
          nReplicated := nReplicated + 1;
        }
        strand[b] := fork;
        b := b + 1;
      }
      assert strand[..] == Marked(old(strand[..]), start, last, fork);
      MarkedMonotone(old(strand[..]), start, last, fork);
      return Ok(true);
    }

    /** The last base `replicate` marks for a requested end. */
    function LastBase(end: int): int
    {
      if end >= length then length - 1 else end
    }

    /** Damps the landscape around base i with kernel k; out of range unless 0 <= i < Size(). */
    method SetDormantActivationProbability(i: int, k: Kernel) returns (r: Outcome)
      requires Valid()
      modifies landscape
      ensures Valid()
      ensures r.Fail? <==> i < 0 || length <= i
      ensures r.Fail? ==> r.fault == OutOfRange && landscape[..] == old(landscape[..])
      ensures r.Pass? ==> landscape[..] == Damped(old(landscape[..]), i, k)
    {
      if i < 0 || length <= i {
        return Fail(OutOfRange);
      }
      var lo := if i - k.radius < 0 then 0 else i - k.radius;
      var hi := if i + k.radius >= length then length - 1 else i + k.radius;
      var j := lo;
      while j <= hi
        invariant lo <= j <= hi + 1
        invariant forall x :: 0 <= x < length ==>
          landscape[x] == if lo <= x < j then old(landscape[x]) * k.factor(Distance(x, i)) else old(landscape[x])
      {
        landscape[j] := landscape[j] * k.factor(Distance(j, i));
        j := j + 1;
      }
      ghost var before := old(landscape[..]);
      forall x | 0 <= x < length
        ensures landscape[..][x] == Damped(before, i, k)[x]
      {
        assert lo <= x <= hi <==> Distance(x, i) <= k.radius;
      }
      return Pass;
    }

    /** The strand as text: one line per base holding its state in decimal. */
    method ToString() returns (s: string)
      requires Valid()
      ensures s == Dump(strand[..])
    {
      s := "";
      for b := 0 to length
        invariant s == Dump(strand[..b])
      {
        assert strand[..b + 1] == strand[..b] + [strand[b]];
        DumpSnoc(strand[..b], strand[b]);
        s := s + IntToString(strand[b]) + "\n";
      }
      assert strand[..length] == strand[..];
    }
  }
}
