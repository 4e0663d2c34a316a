/** Configuration of the beanstalk broker: the server address, given as a
    socket DSN such as `tcp://:6001` or `unix://rpc.sock`, and the timeout
    for allocating a connection. */
module Beanstalk {
  import opened Common

  /** Go's `int` and `time.Duration` are 64-bit signed integers. */
  const Int64Modulus: int := 0x1_0000_0000_0000_0000
  const Int64Min: int := -0x8000_0000_0000_0000
  const Int64Max: int := 0x7fff_ffff_ffff_ffff
  type Int64 = x: int | Int64Min <= x <= Int64Max

  /** One second as a `time.Duration`, which counts nanoseconds. */
  const NanosPerSecond: int := 1_000_000_000

  /** The largest timeout, in seconds, whose duration still fits in 64 bits. */
  const MaxTimeoutSeconds: int := Int64Max / NanosPerSecond

  const DsnSeparator: string := "://"
  const InvalidDsn: string := "invalid socket DSN (tcp://:6001, unix://rpc.sock)"

  /** Two's-complement wrap-around of a 64-bit multiplication result. */
  function WrapInt64(x: int): (r: Int64)
    ensures (r - x) % Int64Modulus == 0
    ensures Int64Min <= x <= Int64Max ==> r == x
  {
    var m := (x - Int64Min) % Int64Modulus;
    m + Int64Min
  }

  /** Where the beanstalk connection would be opened: the network (the DSN's
      scheme), the address and the allocation timeout. */
  datatype DialTarget = DialTarget(network: string, address: string, timeout: Int64)

  class Config {
    /** Address of the beanstalk server. */
    var addr: string
    /** Seconds allowed to allocate the connection. */
    var timeout: Int64

    constructor (addr: string, timeout: Int64)
      ensures this.addr == addr && this.timeout == timeout
    {
      this.addr := addr;
      this.timeout := timeout;
    }

    /** Sets the defaults: the timeout to ten seconds. */
    method InitDefaults() returns (err: Option<Error>)
      modifies this`timeout
      ensures timeout == 10
      ensures err == None
    {
      timeout := 10;
      err := None;
    }

    /** The timeout as a duration in nanoseconds. Go multiplies in 64 bits,
        so a timeout beyond MaxTimeoutSeconds wraps around. */
    function TimeoutDuration(): (d: Int64)
      reads this
      ensures -MaxTimeoutSeconds <= timeout <= MaxTimeoutSeconds ==> d == timeout * NanosPerSecond
      ensures (d - timeout * NanosPerSecond) % Int64Modulus == 0
    {
      WrapInt64(timeout * NanosPerSecond)
    }

    /** What the broker dials: the address split at "://" into the network
        and the address, which must give exactly two parts. */
    function NewConn(): (r: Result<DialTarget>)
      reads this
      ensures r.Err? <==> |Split(addr, DsnSeparator)| != 2
      ensures r.Err? ==> r.error == Error(InvalidDsn)
      ensures r.Ok? ==> r.value.timeout == TimeoutDuration()
      ensures r.Ok? ==> addr == r.value.network + DsnSeparator + r.value.address
    {
      match ParseDsn(addr)
      case Err(e) => Err(e)
      case Ok((network, address)) => Ok(DialTarget(network, address, TimeoutDuration()))
    }
  }

  /** sep occurs in s starting at index j. */
  predicate OccursAt(s: string, sep: string, j: int)
  {
    0 <= j && j + |sep| <= |s| && s[j..j + |sep|] == sep
  }

  ghost predicate Contains(s: string, sep: string)
  {
    exists j :: OccursAt(s, sep, j)
  }

  /** The leftmost occurrence of sep in s at or after from. */
  function IndexFrom(s: string, sep: string, from: nat): (r: Option<nat>)
    requires |sep| > 0
    ensures r.Some? ==> from <= r.value && OccursAt(s, sep, r.value)
    ensures r.Some? ==> forall j :: from <= j < r.value ==> !OccursAt(s, sep, j)
    ensures r.None? ==> forall j :: from <= j ==> !OccursAt(s, sep, j)
    decreases |s| - from
  {
    if from + |sep| > |s| then None
    else if s[from..from + |sep|] == sep then Some(from)
    else IndexFrom(s, sep, from + 1)
  }

  /** Concatenation of parts with sep between neighbours: the inverse of Split. */
  function Join(parts: seq<string>, sep: string): string
    requires |parts| > 0
  {
    if |parts| == 1 then parts[0] else parts[0] + sep + Join(parts[1..], sep)
  }

  /** Go's `strings.Split` for a non-empty separator: the pieces of s between
      its successive leftmost occurrences of sep. */
  function Split(s: string, sep: string): (parts: seq<string>)
    requires |sep| > 0
    ensures |parts| > 0
    ensures Join(parts, sep) == s
    ensures forall k :: 0 <= k < |parts| ==> !Contains(parts[k], sep)
    decreases |s|
  {
    match IndexFrom(s, sep, 0)
    case None => [s]
    case Some(i) =>
      PrefixFree(s, sep, i);
      [s[..i]] + Split(s[i + |sep|..], sep)
  }

  /** The text before the leftmost occurrence of sep holds no occurrence of it. */
  lemma PrefixFree(s: string, sep: string, i: nat)
    requires |sep| > 0 && i <= |s|
    requires forall j :: 0 <= j < i ==> !OccursAt(s, sep, j)
    ensures !Contains(s[..i], sep)
  {
    forall j | OccursAt(s[..i], sep, j) ensures false {
      assert s[..i][j..j + |sep|] == s[j..j + |sep|];
      assert OccursAt(s, sep, j);
    }
  }

  /** The DSN split: exactly two parts give (network, address); anything
      else is the "invalid socket DSN" error. */
  function ParseDsn(addr: string): (r: Result<(string, string)>)
    ensures r.Err? <==> |Split(addr, DsnSeparator)| != 2
    ensures r.Err? ==> r.error == Error(InvalidDsn)
    ensures r.Ok? ==> addr == r.value.0 + DsnSeparator + r.value.1
    ensures r.Ok? ==> !Contains(r.value.0, DsnSeparator) && !Contains(r.value.1, DsnSeparator)
  {
    var dsn := Split(addr, DsnSeparator);
    if |dsn| != 2 then Err(Error(InvalidDsn))
    else
      assert Join(dsn[1..], DsnSeparator) == dsn[1];
      Ok((dsn[0], dsn[1]))
  }

  /** No occurrence of "://" can straddle the end of a string free of it and
      a following "://": the separator is found exactly where it was placed. */
  lemma FirstSeparatorAt(network: string, address: string)
    requires !Contains(network, DsnSeparator)
    ensures IndexFrom(network + DsnSeparator + address, DsnSeparator, 0) == Some(|network|)
  {
    var s := network + DsnSeparator + address;
    var n := |network|;
    assert s[n..n + 3] == DsnSeparator;
    assert OccursAt(s, DsnSeparator, n);
    forall j | 0 <= j < n ensures !OccursAt(s, DsnSeparator, j) {
      if j + 3 <= n {
        assert s[j..j + 3] == network[j..j + 3];
        assert !OccursAt(network, DsnSeparator, j);
      } else {
        // an occurrence here would need a '/' where the separator's ':' stands
        assert s[j..j + 3][n - j] == s[n] == ':' != DsnSeparator[n - j];
      }
    }
  }

  /** Round trip: a network and an address free of "://", joined by it,
      parse back to exactly that network and address. */
  lemma {:induction false} DsnRoundTrip(network: string, address: string)
    requires !Contains(network, DsnSeparator) && !Contains(address, DsnSeparator)
    ensures ParseDsn(network + DsnSeparator + address) == Ok((network, address))
  {
    var s := network + DsnSeparator + address;
    FirstSeparatorAt(network, address);
    var n := |network|;
    assert s[..n] == network;
    assert s[n + 3..] == address;
    assert IndexFrom(address, DsnSeparator, 0).None?;
    assert Split(address, DsnSeparator) == [address];
    assert Split(s, DsnSeparator) == [network] + Split(address, DsnSeparator);
  }

  /** An address is accepted exactly when it is some network and address,
      both free of "://", joined by "://". */
  lemma ParseDsnAccepts(addr: string)
    ensures ParseDsn(addr).Ok? <==>
      exists network, address :: && !Contains(network, DsnSeparator)
                                 && !Contains(address, DsnSeparator)
                                 && addr == network + DsnSeparator + address
  {
    if !ParseDsn(addr).Ok? {
      forall network, address | && !Contains(network, DsnSeparator)
                                && !Contains(address, DsnSeparator)
        ensures addr != network + DsnSeparator + address
      {
        if addr == network + DsnSeparator + address {
          DsnRoundTrip(network, address);
        }
      }
    }
  }
}
