/** The boundary to the management console (the HMC).  The three modules
    reach it through a command-line session and a REST session whose code
    is not part of this model; here every interaction is a `Call` recorded
    in a trace, and every answer is an input. */
module Console {
  import opened Python

  /** What one console request gives back: an answer, or an `HmcError`
      carrying the console's error text. */
  datatype Reply<+T> = Answer(value: T) | Refused(text: string)

  /** One console interaction, named after the session method that issues it. */
  datatype Call =
    // vios.py
    | GetPartitionConfig(system: Value, name: Value, profile: Value)
    | CreateVirtualIOServer(system: Value, name: Value, config: Value)
    | FetchIODetailsForNetboot(args: seq<Value>)
    | InstallOSFromNIM(args: seq<Value>)
    | InstallOSFromDisk(args: seq<Value>)
    | CheckForOSToBootUpFully(system: Value, name: Value, timeout: Value)
    | RunCommandOnVIOS(system: Value, name: Value, command: string)
    | GetVirtualIOServersQuick(uuid: string)
    | GetVirtualIOServer(uuid: string)
    // power_system.py
    | GetManagedSystemDetails(system: Value)
    | ManagedSystemPowerOn(system: Value)
    | ManagedSystemShutdown(system: Value)
    | CheckManagedSysState(system: Value, states: seq<string>)
    | ConfSysGenSettings(system: Value, settings: Fields)
    | GetManagedSystemHwres(system: Value, resource: string, level: string)
    | ConfSysMem(system: Value, settings: Fields, operation: string)
    | RestLogin
    | GetManagedSystem(system: Value)
    | GetManagedSystemQuick(uuid: string)
    | UpdatePcm(uuid: string, metrics: Value, disable: string)
    | GetPcm(uuid: string, state: Value)
    // vios_update_upgrade.py
    | Execute(command: string)
    | GetViosVersion(attributes: Fields)
    | UpdateVios(state: Value, attributes: Fields)
  {
    /** The calls that change the managed system or the partition. */
    predicate Mutating()
    {
      || CreateVirtualIOServer? || InstallOSFromNIM? || InstallOSFromDisk? || RunCommandOnVIOS?
      || ManagedSystemPowerOn? || ManagedSystemShutdown? || ConfSysGenSettings? || ConfSysMem?
      || UpdatePcm? || UpdateVios?
    }
  }

  /** The mutating calls of a trace, in the order they were issued. */
  function Mutations(calls: seq<Call>): (ms: seq<Call>)
    ensures |ms| <= |calls|
  {
    if calls == [] then []
    else
      var last := calls[|calls| - 1];
      Mutations(calls[..|calls| - 1]) + (if last.Mutating() then [last] else [])
  }

  /** A call is among the mutations exactly when it is in the trace and mutates. */
  lemma {:induction false} MutationsMembers(calls: seq<Call>, c: Call)
    ensures c in Mutations(calls) <==> c in calls && c.Mutating()
  {
    if calls != [] {
      var init := calls[..|calls| - 1];
      assert calls == init + [calls[|calls| - 1]];
      assert c in calls <==> c in init || c == calls[|calls| - 1];
      MutationsMembers(init, c);
    }
  }

  /** Issuing one more call adds it to the mutations exactly when it mutates. */
  lemma Issue(calls: seq<Call>, c: Call)
    ensures Mutations(calls + [c]) == Mutations(calls) + (if c.Mutating() then [c] else [])
  {
    assert (calls + [c])[..|calls|] == calls;
  }

  /** Read-only calls, then one mutating call, then a read-only call: the
      mutating call is the only mutation. */
  lemma OneMutation(before: seq<Call>, c: Call, after: Call)
    requires Mutations(before) == [] && c.Mutating() && !after.Mutating()
    ensures Mutations(before + [c]) == [c]
    ensures Mutations(before + [c] + [after]) == [c]
  {
    Issue(before, c);
    Issue(before + [c], after);
  }

  /** A single call is a mutation exactly when it mutates. */
  lemma MutationsOfOne(c: Call)
    ensures Mutations([c]) == if c.Mutating() then [c] else []
  {
    Issue([], c);
    assert [] + [c] == [c];
  }

  /** The mutations of two traces issued one after the other. */
  lemma {:induction false} MutationsOfJoin(a: seq<Call>, b: seq<Call>)
    ensures Mutations(a + b) == Mutations(a) + Mutations(b)
  {
    if b == [] {
      assert a + b == a;
    } else {
      var init, last := b[..|b| - 1], b[|b| - 1];
      var tail := if last.Mutating() then [last] else [];
      assert b == init + [last];
      assert a + b == (a + init) + [last];
      calc {
        Mutations(a + b);
        { Issue(a + init, last); }
        Mutations(a + init) + tail;
        { MutationsOfJoin(a, init); }
        Mutations(a) + Mutations(init) + tail;
        { Issue(init, last); }
        Mutations(a) + Mutations(b);
      }
    }
  }

  /** A mutating call between two read-only traces is the trace's only mutation. */
  lemma OneAmongReads(before: seq<Call>, c: Call, after: seq<Call>)
    requires ReadOnly(before) && ReadOnly(after) && c.Mutating()
    ensures Mutations(before + [c] + after) == [c]
  {
    ReadOnlyMeansNoMutations(before);
    ReadOnlyMeansNoMutations(after);
    Issue(before, c);
    MutationsOfJoin(before + [c], after);
  }

  /** A trace that changes nothing. */
  predicate ReadOnly(calls: seq<Call>)
  {
    forall c :: c in calls ==> !c.Mutating()
  }

  lemma ReadOnlyMeansNoMutations(calls: seq<Call>)
    ensures ReadOnly(calls) <==> Mutations(calls) == []
  {
    forall c { MutationsMembers(calls, c); }
    if Mutations(calls) != [] {
      assert Mutations(calls)[0] in Mutations(calls);
    }
  }
}
