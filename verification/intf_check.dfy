/** The decision `checkIntf` makes before a hardware interface is adopted
    into the running network. The output of the `ifconfig <intf>` probe is
    an input here; the program's `exit(1)` becomes a failed outcome. */
module IntfCheck {
  import opened Results
  import opened DottedQuad

  /** Why the interface may not be adopted. */
  datatype CheckError =
    | DoesNotExist  // the probe printed nothing
    | HasAddress    // the probe output shows an address: probably in use

  /** Decides from the probe output whether the interface may be adopted. */
  function CheckIntf(probeOutput: string): (r: Outcome<CheckError>)
    ensures r == Exit(DoesNotExist) <==> probeOutput == ""
    ensures r == Exit(HasAddress) <==> probeOutput != "" && ContainsDottedQuad(probeOutput)
    ensures r == Continue <==> probeOutput != "" && !ContainsDottedQuad(probeOutput)
  {
    if |probeOutput| == 0 then Exit(DoesNotExist)
    else if HasDottedQuad(probeOutput) then Exit(HasAddress)
    else Continue
  }

  /** An empty probe output means the interface does not exist; that
      verdict is given whatever the address test would say. */
  lemma EmptyProbeDoesNotExist()
    ensures CheckIntf("") == Exit(DoesNotExist)
  {
  }

  /** Digit runs of any length count: `999.1234.0.00001` is not an IPv4
      address but still marks the interface as in use. */
  lemma AnyDigitRunsCount()
    ensures CheckIntf("inet 999.1234.0.00001") == Exit(HasAddress)
  {
    assert QuadAt("inet 999.1234.0.00001", 5, 8, 13, 15, 21);
  }

  /** An address anywhere inside a longer line is found. */
  lemma AddressInsideLineCounts()
    ensures CheckIntf("addr:10.0.0.1 up") == Exit(HasAddress)
  {
    assert QuadAt("addr:10.0.0.1 up", 5, 7, 9, 11, 13);
  }

  /** Three dotted runs, or dots with nothing between them, are not a match. */
  lemma ShortOrBrokenQuadsPass()
    ensures CheckIntf("mtu 1500 1.2.3") == Continue
    ensures CheckIntf("1..2.3.4") == Continue
  {
  }
}
