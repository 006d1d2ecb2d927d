/** The clock-domain crosser: PIMSimulator/src/ClockDomain.cpp:66-96. */
module ClockDomain {
  import opened Numbers

  class ClockDomainCrosser {
    const clock1: nat
    const clock2: nat
    const hasCallback: bool
    var counter1: nat
    var counter2: nat
    var fired: nat  // how often the callback has run

    ghost var calls: nat  // how often update has been called
    ghost var dropped: nat  // what the counter resets have taken off both counters

    ghost predicate Valid()
      reads this
    {
      && clock1 > 0 && clock2 > 0
      && counter1 <= counter2 < counter1 + clock2
      && (hasCallback ==>
            if clock1 == clock2 then fired == calls && counter1 == counter2 == 0
            else counter1 + dropped == calls * clock1 && counter2 + dropped == fired * clock2)
      && (!hasCallback ==> fired == 0)
    }

    constructor (clock1: nat, clock2: nat, hasCallback: bool)
      requires clock1 > 0 && clock2 > 0
      ensures Valid() && calls == 0 && fired == 0
      ensures this.clock1 == clock1 && this.clock2 == clock2 && this.hasCallback == hasCallback
    {
      this.clock1, this.clock2, this.hasCallback := clock1, clock2, hasCallback;
      counter1, counter2, fired, calls, dropped := 0, 0, 0, 0, 0;
    }

    /** No drift: whatever was reset or short-circuited, the callbacks so far are exactly those due. */
    lemma NoDrift()
      requires Valid() && hasCallback
      ensures fired == CeilDiv(calls * clock1, clock2)
    {
      CeilDivUnique(calls * clock1, clock2, fired);
    }

    method Update()
      requires Valid()
      modifies this
      ensures Valid() && calls == old(calls) + 1
      ensures hasCallback ==> fired == CeilDiv(calls * clock1, clock2)
      ensures !hasCallback ==> fired == 0
    {
      calls := calls + 1;
      if clock1 == clock2 && hasCallback {
        fired := fired + 1;
        NoDrift();
        return;
      }
      counter1 := counter1 + clock1;
      Spread(old(calls), clock1);
      while counter2 < counter1
        invariant counter2 < counter1 + clock2
        invariant counter1 == old(counter1) + clock1 && dropped == old(dropped) && calls == old(calls) + 1
        invariant hasCallback ==> counter2 + dropped == fired * clock2
        invariant !hasCallback ==> fired == 0
      {
        counter2 := counter2 + clock2;
        Spread(fired, clock2);
        if hasCallback {
          fired := fired + 1;
        }
      }
      if counter1 == counter2 {
        dropped := dropped + counter1;
        counter1, counter2 := 0, 0;
      }
      if hasCallback {
        NoDrift();
      }
    }
  }

  lemma Spread(n: nat, c: nat)
    ensures (n + 1) * c == n * c + c
  {
  }

  /** Over any number of calls the callback has run exactly ceil(n * clock1 / clock2) times. */
  method Drive(clock1: nat, clock2: nat, n: nat) returns (fired: nat)
    requires clock1 > 0 && clock2 > 0
    ensures fired == CeilDiv(n * clock1, clock2)
  {
    var crosser := new ClockDomainCrosser(clock1, clock2, true);
    for i := 0 to n
      invariant crosser.Valid() && crosser.calls == i && fresh(crosser)
      invariant crosser.clock1 == clock1 && crosser.clock2 == clock2 && crosser.hasCallback
    {
      crosser.Update();
    }
    crosser.NoDrift();
    fired := crosser.fired;
  }
}
