/**
 * The other collaborators the create-log use case is wired with in the
 * tests: an alert service that can be made unhealthy, an id generator
 * following a script (the integration tests' counting one among them) and
 * a fixed clock.
 */
module Collaborators {
  import opened DomainErrors
  import opened Entities
  import opened Decimal

  /** Records the alerts it delivers; an unhealthy service refuses them all. */
  class AlertService {
    var healthy: bool
    /** The alerts delivered so far. */
    var sentAlerts: seq<LogEntry>
    /** Every single-entry alert asked for, delivered or not. */
    ghost var attempts: seq<LogEntry>

    constructor (healthy: bool)
      ensures this.healthy == healthy && sentAlerts == [] && attempts == []
    {
      this.healthy := healthy;
      sentAlerts := [];
      attempts := [];
    }

    method SendAlert(e: LogEntry) returns (r: Outcome)
      modifies this`sentAlerts, this`attempts
      ensures attempts == old(attempts) + [e]
      ensures healthy ==> r == Pass && sentAlerts == old(sentAlerts) + [e]
      ensures !healthy ==> r == Fail(AlertServiceUnavailable) && sentAlerts == old(sentAlerts)
    {
      attempts := attempts + [e];
      if !healthy { return Fail(AlertServiceUnavailable); }
      sentAlerts := sentAlerts + [e];
      return Pass;
    }

    method SendBatchAlert(es: seq<LogEntry>) returns (r: Outcome)
      modifies this`sentAlerts
      ensures healthy ==> r == Pass && sentAlerts == old(sentAlerts) + es
      ensures !healthy ==> r == Fail(AlertServiceUnavailable) && sentAlerts == old(sentAlerts)
    {
      if !healthy { return Fail(AlertServiceUnavailable); }
      sentAlerts := sentAlerts + es;
      return Pass;
    }
  }

  /** The identifier the generator hands out on its `n`-th call. */
  function IdFor(n: nat): string
  {
    "log-" + NatToString(n)
  }

  /** Two different calls never produce the same identifier. */
  lemma IdForInjective(a: nat, b: nat)
    ensures IdFor(a) == IdFor(b) ==> a == b
  {
    if IdFor(a) == IdFor(b) {
      assert NatToString(a) == IdFor(a)[4..];
      assert NatToString(b) == IdFor(b)[4..];
      NatToStringInjective(a, b);
    }
  }

  /** A generated identifier always passes the entry's non-blank id check. */
  lemma IdForNotBlank(n: nat)
    ensures TrimSpace(IdFor(n)) != ""
  {
    TrimSpaceEmptyIffBlank(IdFor(n));
    assert !IsSpace(IdFor(n)[0]);
  }

  /**
   * Hands out `script(1)`, `script(2)`, ... The integration tests' generator
   * is the one built by `Counting`, whose script is `IdFor` ("log-1",
   * "log-2", ...); the use-case tests script any string, blank included.
   */
  class IdGenerator {
    /** The identifier returned on each call, by call number. */
    const script: nat -> string
    /** How many identifiers have been handed out. */
    var counter: nat

    constructor (script: nat -> string)
      ensures this.script == script && counter == 0
    {
      this.script := script;
      counter := 0;
    }

    constructor Counting()
      ensures script == IdFor && counter == 0
    {
      script := IdFor;
      counter := 0;
    }

    method Generate() returns (id: string)
      modifies this
      ensures counter == old(counter) + 1
      ensures id == script(counter)
    {
      counter := counter + 1;
      id := script(counter);
    }
  }

  /** 2025-09-01T15:30:00Z in seconds since the Unix epoch: the integration tests' clock. */
  const IntegrationTime := 1756740600

  /** A clock that always reads the same instant. */
  class FixedClock {
    const fixedTime: int
    /** How often the clock was read. */
    ghost var readCount: nat

    constructor (fixedTime: int)
      ensures this.fixedTime == fixedTime && readCount == 0
    {
      this.fixedTime := fixedTime;
      readCount := 0;
    }

    method Now() returns (t: int)
      modifies this`readCount
      ensures t == fixedTime && readCount == old(readCount) + 1
    {
      readCount := readCount + 1;
      t := fixedTime;
    }
  }
}
