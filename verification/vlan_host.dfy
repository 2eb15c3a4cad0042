/** `VLANHost.config`: moves a host's traffic onto a VLAN sub-interface of
    its default interface. The host is abstracted to its default interface
    and its name-to-interface map; the shell commands it runs are appended
    to a command trace instead of being executed. */
module VlanHost {
  import opened Results
  import opened Decimal

  /** Identity of an interface object: renaming keeps it. */
  type IntfId = nat

  /** A Mininet interface object; `%s` of it is its name. */
  datatype Intf = Intf(id: IntfId, name: string)

  /** The parts of a host that `config` reads and writes. */
  datatype Host = Host(defaultIntf: Intf, nameToIntf: map<string, IntfId>)

  /** A shell command issued through `Host.cmd`. */
  datatype Command =
    | IfconfigInet(device: string, address: string)  // `ifconfig <dev> inet <addr>`
    | VconfigAdd(device: string, vlan: int)          // `vconfig add <dev> <vlan>`

  /** The `KeyError` raised when a parameter is missing. */
  datatype ConfigError = MissingParam(key: string)

  /** What `config` leaves behind: the host, the commands issued so far and
      the value returned or the error raised. */
  datatype Configured<R> = Configured(host: Host, trace: seq<string>, result: Result<R, ConfigError>)

  /** The VLAN id used when the caller gives none. */
  const DefaultVlan: int := 100

  /** The command line the host's shell receives. */
  function Render(c: Command): string {
    match c
    case IfconfigInet(dev, addr) => "ifconfig " + dev + " inet " + addr
    case VconfigAdd(dev, vlan) => "vconfig add " + dev + " " + DecimalString(vlan)
  }

  /** `'%s.%d' % (intf, vlan)`: the name of the VLAN sub-interface. It
      starts with the base name, then a dot, then text that reads back as
      the VLAN id. */
  function VlanName(base: string, vlan: int): (name: string)
    ensures |name| > |base| + 1 && name[..|base|] == base && name[|base|] == '.'
    ensures ParseDecimal(name[|base| + 1..]) == Some(vlan)
  {
    var name := base + "." + DecimalString(vlan);
    assert name[|base| + 1..] == DecimalString(vlan);
    DecimalRoundTrip(vlan);
    name
  }

  /** Position of the last dot in `s`, if any. */
  function LastDot(s: string): (r: Option<nat>)
    ensures r.Some? ==> r.value < |s| && s[r.value] == '.'
    ensures r.Some? ==> forall k :: r.value < k < |s| ==> s[k] != '.'
    ensures r.None? ==> forall k :: 0 <= k < |s| ==> s[k] != '.'
    decreases |s|
  {
    if |s| == 0 then None
    else if s[|s| - 1] == '.' then Some(|s| - 1)
    else LastDot(s[..|s| - 1])
  }

  /** Splits a VLAN interface name into its base name and VLAN id: the
      reference reading of a name built by `VlanName`. */
  function SplitVlanName(name: string): Option<(string, int)> {
    match LastDot(name)
    case None => None
    case Some(k) =>
      match ParseDecimal(name[k + 1..])
      case None => None
      case Some(v) => Some((name[..k], v))
  }

  /** The base name and VLAN id can be read back from the VLAN name. */
  lemma VlanNameSplits(base: string, vlan: int)
    ensures SplitVlanName(VlanName(base, vlan)) == Some((base, vlan))
  {
    var name := VlanName(base, vlan);
    assert LastDot(name) == Some(|base|);
    assert name[..|base|] == base;
  }

  /** Distinct (base, VLAN id) pairs give distinct VLAN names, and a VLAN
      name never equals its base name. */
  lemma VlanNameInjective(b1: string, v1: int, b2: string, v2: int)
    ensures VlanName(b1, v1) == VlanName(b2, v2) <==> b1 == b2 && v1 == v2
    ensures VlanName(b1, v1) != b1
  {
  }

  /** `VLANHost.config(vlan, **params)` applied to the host as `Host.config`
      left it; `superResult` is what `Host.config` returned. The first two
      commands are issued before `params['ip']` is looked up, so a missing
      address leaves them in the trace. */
  function Config<R>(h: Host, trace: seq<string>, superResult: R, vlan: Option<int>,
                     params: map<string, string>): (c: Configured<R>)
    ensures c.result.Returned? <==> "ip" in params
    ensures c.result.Returned? ==> c.result.value == superResult
    ensures c.result.Raised? ==> c.result.error == MissingParam("ip")
    // The trace keeps what came before and grows by the commands issued.
    ensures |trace| + 2 <= |c.trace| && c.trace[..|trace|] == trace
    // The address is stripped from the base interface, then the VLAN
    // interface is created on it, both before the address is looked up.
    ensures c.trace[|trace|] == Render(IfconfigInet(h.defaultIntf.name, "0"))
    ensures c.trace[|trace| + 1] == Render(VconfigAdd(h.defaultIntf.name, vlan.ValueOr(DefaultVlan)))
    // A missing address stops before anything else happens.
    ensures c.result.Raised? ==> |c.trace| == |trace| + 2 && c.host == h
    // On success the address goes to the interface the host now calls its
    // default, which is the same object renamed to `<base>.<vlan>`.
    ensures c.result.Returned? ==>
      && |c.trace| == |trace| + 3
      && c.trace[|trace| + 2] == Render(IfconfigInet(c.host.defaultIntf.name, params["ip"]))
      && c.host.defaultIntf.id == h.defaultIntf.id
      && c.host.defaultIntf.name == VlanName(h.defaultIntf.name, vlan.ValueOr(DefaultVlan))
    // The map gains the new name for that object and nothing else changes.
    ensures c.result.Returned? ==>
      && c.host.nameToIntf.Keys == h.nameToIntf.Keys + {c.host.defaultIntf.name}
      && c.host.nameToIntf[c.host.defaultIntf.name] == h.defaultIntf.id
      && (forall n :: n in h.nameToIntf && n != c.host.defaultIntf.name ==>
            c.host.nameToIntf[n] == h.nameToIntf[n])
    // In particular the old base name is never removed.
    ensures c.result.Returned? && h.defaultIntf.name in h.nameToIntf ==>
      && h.defaultIntf.name in c.host.nameToIntf
      && c.host.nameToIntf[h.defaultIntf.name] == h.nameToIntf[h.defaultIntf.name]
  {
    var base := h.defaultIntf.name;
    var v := vlan.ValueOr(DefaultVlan);
    var issued := trace + [Render(IfconfigInet(base, "0")), Render(VconfigAdd(base, v))];
    if "ip" !in params then
      Configured(h, issued, Raised(MissingParam("ip")))
    else
      var newName := VlanName(base, v);
      VlanNameSplits(base, v);
      VlanNameInjective(base, v, base, v);
      var renamed := h.defaultIntf.(name := newName);
      Configured(Host(renamed, h.nameToIntf[newName := renamed.id]),
                 issued + [Render(IfconfigInet(newName, params["ip"]))],
                 Returned(superResult))
  }

  /** Configuring an already configured host again is not refused. The
      second call first runs `Host.config` again, which this model cannot
      see: `h2` and `t2` are the host and trace it leaves, assumed to keep
      the host as the first call left it. The VLAN name then nests
      (`<base>.<v1>.<v2>`), the second call appends its own three commands,
      and every earlier name stays in the map, still bound to the same
      interface object. */
  lemma ConfigTwiceKeepsEveryName<R>(h: Host, trace: seq<string>, r1: R, r2: R,
                                     v1: int, v2: int, params: map<string, string>,
                                     h2: Host, t2: seq<string>)
    requires "ip" in params
    requires h.defaultIntf.name in h.nameToIntf && h.nameToIntf[h.defaultIntf.name] == h.defaultIntf.id
    requires h2 == Config(h, trace, r1, Some(v1), params).host
    requires var once := Config(h, trace, r1, Some(v1), params);
             |once.trace| <= |t2| && t2[..|once.trace|] == once.trace
    ensures var twice := Config(h2, t2, r2, Some(v2), params);
            && twice.result == Returned(r2)
            && twice.host.defaultIntf == Intf(h.defaultIntf.id, VlanName(VlanName(h.defaultIntf.name, v1), v2))
            && |twice.trace| == |t2| + 3
            && (forall n :: n in {h.defaultIntf.name, VlanName(h.defaultIntf.name, v1), twice.host.defaultIntf.name} ==>
                  n in twice.host.nameToIntf && twice.host.nameToIntf[n] == h.defaultIntf.id)
  {
    var base := h.defaultIntf.name;
    var twice := Config(h2, t2, r2, Some(v2), params);
    SplitsOnlyVlanNames(h2.defaultIntf.name, base, v1);
    SplitsOnlyVlanNames(twice.host.defaultIntf.name, VlanName(base, v1), v2);
  }

  /** A name splits into (base, vlan) exactly when it is the VLAN name
      built from them. */
  lemma SplitsOnlyVlanNames(name: string, base: string, vlan: int)
    ensures SplitVlanName(name) == Some((base, vlan)) <==> name == VlanName(base, vlan)
  {
    if SplitVlanName(name) == Some((base, vlan)) {
      var k := LastDot(name).value;
      var tail := name[k + 1..];
      RenderOfParse(tail, vlan);
      assert name == name[..k] + "." + tail;
    }
    if name == VlanName(base, vlan) {
      VlanNameSplits(base, vlan);
    }
  }

  /** With no VLAN id given, `eth0` becomes `eth0.100`. */
  lemma DefaultVlanName()
    ensures DecimalString(DefaultVlan) == "100"
    ensures VlanName("eth0", DefaultVlan) == "eth0.100"
  {
    assert NatDigits(1) == "1" && NatDigits(10) == "10";
  }

  /** The worked example, commands: host `eth0` with the default VLAN id
      and address `10.0.0.1/24`. */
  lemma DefaultVlanScenarioCommands(h: Host, params: map<string, string>)
    requires h == Host(Intf(0, "eth0"), map["eth0" := 0])
    requires params == map["ip" := "10.0.0.1/24"]
    ensures var c := Config(h, [], (), None, params);
            && |c.trace| == 3
            && c.trace[0] == "ifconfig eth0 inet 0"
            && c.trace[1] == "vconfig add eth0 100"
            && c.trace[2] == "ifconfig eth0.100 inet 10.0.0.1/24"
  {
    var c := Config(h, [], (), None, params);
    assert c.trace[0] == "ifconfig eth0 inet 0";
    assert c.trace[1] == "vconfig add eth0 100" by {
      DefaultVlanName();
    }
    assert c.trace[2] == "ifconfig eth0.100 inet 10.0.0.1/24" by {
      ScenarioAddressCommandText();
    }
  }

  /** The text of the third command in the worked example. */
  lemma ScenarioAddressCommandText()
    ensures Render(IfconfigInet(VlanName("eth0", DefaultVlan), "10.0.0.1/24")) == "ifconfig eth0.100 inet 10.0.0.1/24"
  {
    DefaultVlanName();
  }

  /** The worked example, state: the default interface answers to
      `eth0.100`, and `eth0` still maps to it. */
  lemma DefaultVlanScenarioHost(h: Host, params: map<string, string>)
    requires h == Host(Intf(0, "eth0"), map["eth0" := 0])
    requires params == map["ip" := "10.0.0.1/24"]
    ensures var c := Config(h, [], (), None, params);
            && c.host == Host(Intf(0, "eth0.100"), map["eth0" := 0, "eth0.100" := 0])
            && c.result == Returned(())
  {
    DefaultVlanName();
  }
}
